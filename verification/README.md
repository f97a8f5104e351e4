# The dispatcher, verified

This project models the scheduling engine of the job dispatcher (`src/dispatcher`) in Dafny and proves
what it promises: a lock-protected state machine over jobs and robots with dependencies, assignments,
a durable store whose writes may fail, an archive, time estimates, an event hub, a board of
maintenance proposals and the MQTT packets that publish the state.

`dafny verify dfyconfig.toml` checks everything.

## How it is built

- **Values.** `Model` holds jobs, robots, settings and the history of a run; `Operations` gives each
  public operation as a function from memory to memory, with the refusals in the order of the source.
- **The engine in place.** `Engines.Engine` has the fields of the source's `Engine` (jobs, robots, the
  index of jobs by robot, the key index, stop requests, tool answers, the sequence counter, the pending
  batch). Each method changes them in place with the loops of the source, and is proved to take memory
  exactly where the function of `Operations` says, to keep the invariant, to leave in the store what
  `Writing` says, and, when it began with the store equal to memory and no write failed, to end that
  way. A loop over a Go map picks any remaining key, so every result holds for every map order.
- **Runs.** A run carries memory and the store (`Runs.World`). Each step is a public operation with
  what it writes, any write failing, or a restart, which loads the store. Every public method of the
  engine that changes something is proved to be such a step (`Takes` in its contract). `Moves` splits
  the operations into elementary changes, and `Runs` proves by induction over all runs from an empty
  engine what holds in every state they come to. A job's life is read back from the history (`Lives`),
  so counters are compared with what happened, not with themselves.
- **Restarts.** Most writes may fail without stopping memory, so a restart can load something memory
  never was. What no failed write can touch is which jobs there are: `Runs.StoreKnowsEveryJob` proves of
  every run that the store holds exactly the jobs of memory, under their keys and numbers.
  `Restarting.StartIsSoundIffStoreIs` says exactly which stores give a sound engine, and
  `Runs.OnlyRestartsCanHarm` that a run keeps memory consistent all along if and only if each restart in
  it loads such a store; a state is *attainable* (`Runs.Attainable`) when every restart on the way to it
  did. The counters of attempts and loads are compared with the history, which goes on through a restart:
  `Restarting.AccountsSurviveIffStoriesAgree` and `Runs.OnlyRestartsCanForget` say that they agree all
  along if and only if each restart found sound records that tell of attempts and loads what memory
  told; then the state is *recountable* (`Runs.Recountable`). A condition on the writes alone is enough
  for both: no restart between a failed write and the next time the store agrees with memory
  (`Runs.Reachable`, `Runs.StoreAgreesUnlessAWriteFailed`). The engine does not report it:
  `LastPersistError` is cleared by the next operation whose writes succeed
  (`src/dispatcher/dispatcher.go:385-400`), so every outcome would have to be noted. `Mishaps` shows by
  three runs, step by step, what a restart outside these conditions does: it loads a cycle of
  dependencies, it loads two jobs on one robot, and it brings a finished job back whose report is then
  counted twice.
- **Fixed points.** `Blocking`, `Archiving` and `Planner` prove that their loops end and that the result
  has one meaning, whatever the order of the scans. `Blocking.RingNeverSettles` shows why the queue must
  stay acyclic, which `Graph` proves of the one operation that rewires it.
- **Dispatch.** `Matching` characterises a pass without mentioning the loop: it is the only matching
  nobody has reason to complain about. `Dispatching` follows the store write by write.
- **Without the definitions.** A theorem about a function says little if the function is wrong. `Promises`
  says what each public operation answers and does in the fields of jobs, robots, heartbeats, costs and
  settings only, naming none of the functions it is specified by, and the contracts of `Engines.Engine`
  repeat it; `Routing`, `Waiting`, `Planner`, `Promptness` and `Boards` do the same for the choice of a
  robot, the reasons to wait, the estimates and the proposals.
- **The parts around it.** `Planner` (estimates), `Waiting` (the view of waiting jobs), `EventHubs`,
  `Boards` and `Mqtt`. The readers in `Mqtt` are written from sections 1.5.3, 2.2.3, 3.1 and 3.3 of
  MQTT Version 3.1.1 (OASIS); the limit of four length bytes is that of its Table 2.4.

What callers keep to, as in the source's own API: robot ids are not empty (`src/api/api.go:569-572`),
and a submitted job names no robot (`src/api/api.go:249-255`). Clocks are parameters; a pass of the
dispatcher, a sweep and a plan read the clock once, and the board's clock does not go back. Durations
and instants are nanoseconds, and milliseconds are rounded down. Texts sent to the board are valid
Unicode. Location costs are exact reals.

## Where the code and its documentation disagree

- `src/dispatcher/dispatcher.go:475-478` says that a failed first write leaves the engine exactly as it
  was. The sequence number is spent at line 468: `Mishaps.AFailedSubmissionSpendsANumber` is a case,
  and `Operations.RefusalLeavesNoTrace` says exactly when nothing changes.
- `src/dispatcher/eta.go:255-256` says that estimates do not model the location preference. The code
  breaks ties with it at line 503, and so does `Planner.PickRobot`.
- `StopRequests` filters by robot but not by attempt (`src/dispatcher/stopconfirm.go:114-118`): what
  `AckStop` accepts is listed, but not everything listed is accepted. `Mishaps.AListedRequestMayBeStale`
  is a run that ends with such a request, and `Runs.ListedRequestsAreAcceptedIfFresh` says exactly when
  a listed one is accepted.

## Model

| member | source | states |
|---|---|---|
| `Graph.DependsTransitively` | src/dispatcher/dispatcher.go:621-639 | the search over the dependencies ends on any graph, circular or with unknown dependencies, and answers true exactly when some root is the target or reaches it |
| `Graph.RewiringKeepsAcyclic` | src/dispatcher/dispatcher.go:576-578 | giving a job new dependencies keeps the graph acyclic if and only if none of them reaches the job: the search asks the right question |
| `Graph.AcyclicMeansNoCycle` | src/dispatcher/dispatcher.go:621-639 | having a numbering that falls along dependencies (what the proofs use) is the same as having no circular chain |
| `Blocking.ComputeStatus` | src/dispatcher/dispatcher.go:810-828 | Unreachable if a live dependency failed, is unreachable or cancelled; else Blocked if one is not done; else Pending |
| `Blocking.StableIsUnique` | src/dispatcher/dispatcher.go:844-862 | on an acyclic queue there is only one assignment of waiting statuses that no recomputation changes, so the order of recomputation decides nothing |
| `Blocking.StableIsRefreshed` | src/dispatcher/dispatcher.go:844-862 | whatever way the loop stops with nothing to change, it stops in the refreshed queue |
| `Blocking.RefreshedMeaning` | src/dispatcher/dispatcher.go:806-862 | a waiting job ends Unreachable exactly when a chain of waiting jobs leads from it to a failed or cancelled one, and Pending exactly when all its live dependencies are done |
| `Blocking.RingNeverSettles` | src/dispatcher/dispatcher.go:844-862 | why the queue has to be acyclic: on a ring of three jobs one visiting order changes statuses in every pass for ever |
| `Engines.Engine.Visit` | src/dispatcher/dispatcher.go:849-857 | one job of a pass: its status is replaced by the recomputed one, and the record is written or put in the batch exactly when it changed |
| `Engines.Engine.OnePass` | src/dispatcher/dispatcher.go:848-860 | a pass in any order brings the jobs of one more rank to their final status; a pass that changes nothing ends in the refreshed queue; from the highest rank on no pass changes anything |
| `Engines.Engine.RefreshBlocked` | src/dispatcher/dispatcher.go:844-862 | terminates on every acyclic queue for every visiting order, and ends with exactly the refreshed statuses; nothing else in memory changes |
| `Ordering.QueueIsUnique` | src/dispatcher/dispatcher.go:880-890 | there is only one list of a set of jobs in dispatch order (or in submission order), so sorting is independent of map order |
| `Ordering.Sorted` | src/dispatcher/dispatcher.go:880-890 | the sorted list holds each job of the set once, higher priority first and then in order of submission |
| `Operations.RefusalLeavesNoTrace` | src/dispatcher/dispatcher.go:451-488 | a refused submission leaves the engine as it was if and only if it was refused before the write: after a failed write the sequence number is spent, whatever the comment at line 475 says |
| `Mishaps.AFailedSubmissionSpendsANumber` | src/dispatcher/dispatcher.go:462-481 | on an empty engine one job whose write fails leaves no job, and a sequence number less |
| `Routing.PreferencesOrder` | src/dispatcher/location.go:91-106 | the order on robots decides between any two robots, one way only, and is transitive, with and without a cost table; so does the order of dispatch; what the first of them is in the fields is `Routing.CloserIsNearer` |
| `Routing.CloserIsNearer` | src/dispatcher/location.go:50-106 | one robot is closer than another exactly when, over the table itself, its way is known where the other is not, or costs less, or the same with less load, then the smaller id; the way within one place costs nothing, and a cost declared one way only holds for the way back |
| `Base.BeforeMeans` | src/dispatcher/location.go:105 | the order of ids is that of strings: a proper prefix comes first, else the smaller character at the first difference |
| `Routing.BestIsUnique` | src/dispatcher/dispatcher.go:1004-1034 | at most one robot is eligible and preferred to every other eligible robot |
| `Routing.BestIsFirstChoice` | src/dispatcher/dispatcher.go:986-1034 | what the one best robot is without the order that defines it: available, with the tool, confirmed and heard from as the settings ask, and of those the nearest by the costs, or in place without a table, then least used |
| `Routing.ClosestByTable` | src/dispatcher/dispatcher.go:1008-1018 | with a cost table the scan in any order returns the nearest of the robots that suit the job by the costs themselves, a known way before an unknown one, then least load, then smallest id; or none when none suits |
| `Routing.LeastUsed` | src/dispatcher/dispatcher.go:1019-1033 | without a table the two running minima yield a robot in the very place of the job when one suits, least used among those; else the least used of all that suit, then the smallest id |
| `Routing.BestRobotFor` | src/dispatcher/dispatcher.go:1004-1034 | returns the one best robot whatever the map order; in the fields of robots, table and settings: the first choice of the job, or none exactly when nobody suits |
| `Matching.GreedyIsFair` | src/dispatcher/dispatcher.go:874-965 | the greedy pass gives each robot to one job at most, only eligible ones, and no job is passed over for a robot that went to a lower-ranked job or that it would have preferred |
| `Matching.FairIsGreedy` | src/dispatcher/dispatcher.go:874-965 | no other matching has these properties |
| `Matching.PassIsTheFairMatching` | src/dispatcher/dispatcher.go:874-965 | with successful writes a pass carries out exactly the one fair matching of the pending jobs in dispatch order, and afterwards no pending job has an eligible robot |
| `Dispatching.OfferInTurn` | src/dispatcher/dispatcher.go:892-963 | a pass over a queue is a pass over its first part followed by one over the rest |
| `Dispatching.OfferToStaysSafe` | src/dispatcher/dispatcher.go:900-962 | one offer, with any of its three writes failing, leaves every state of the store crash-safe and every returned assignment durable, and keeps the invariant |
| `Runs.PassIsCrashSafe` | src/dispatcher/dispatcher.go:892-963 | the same for a whole pass, from any state that is crash-safe |
| `Runs.DispatchIsCrashSafe` | src/dispatcher/dispatcher.go:874-965 | from a store equal to memory, for every pattern of failing writes and a stop after any write, a job stored as assigned has its robot stored as unavailable, and every assignment the pass returned is stored as it is in memory |
| `Runs.DispatchCanStopAnywhere` | src/dispatcher/dispatcher.go:874-965 | from a store in agreement, every state the store goes through during a pass holds sound records, whatever fails: a restart after any write gives a sound engine |
| `Promises.DispatchHandsOut` | src/dispatcher/dispatcher.go:874-965 | in the fields of jobs and robots, whatever writes fail: every assignment of a pass gives a pending job its first choice among the robots the jobs before it left, higher priority and then older submission first; those jobs are assigned with the next attempt from now, those robots are reserved, and nothing else changes |
| `Engines.Engine.DispatchOnce` | src/dispatcher/dispatcher.go:874-965 | does in place what the fold over the queue does: memory, store, the sequence of store states and the returned list are all determined; and the list is what `Promises.DispatchHandsOut` says, the nearest suitable robot for each job at its turn |
| `Engines.Engine.OfferToRobot` | src/dispatcher/dispatcher.go:900-962 | robot saved first, then the job; a failed job write gives the job and the robot back and saves the robot again |
| `Waiting.ReasonIsUnique` | src/dispatcher/waiting.go:54-84 | exactly one reason explains a wait |
| `Waiting.ReasonsSayWhy` | src/dispatcher/waiting.go:54-84 | what each reason says of the robots there are, in their fields: none at all, none with the tool, those with it all busy, those idle all unconfirmed, those confirmed all silent, or one that suits |
| `Waiting.WaitReason` | src/dispatcher/waiting.go:54-84 | the counting loop returns the reason that names the first thing missing: no robots, none with the tool, none available, none confirmed, none heard from, or its turn; each as the fields of the robots say |
| `Waiting.WaitingJobs` | src/dispatcher/waiting.go:31-52 | lists every pending job once, higher priority and then older submission first, with the reason that explains its wait |
| `Waiting.NobodyWaitsAfterAPass` | src/dispatcher/waiting.go:54-84 | after a pass with successful writes no pending job is reported to wait for its turn: the view agrees with dispatch |
| `Engines.Engine.WaitingJobs` | src/dispatcher/waiting.go:31-52 | the view over the engine, changing nothing: one entry per pending job in dispatch order, with its priority, its tool and the reason that explains its wait |
| `Planner.PickRobot` | src/dispatcher/eta.go:489-507 | the scan in any order picks the robot with the tool that can start first, and among those that can start then the nearest by the costs, then the least used; it knows whether any robot has the tool |
| `Planner.BestSlotIsUnique` | src/dispatcher/eta.go:489-507 | there is only one such robot |
| `Planner.DepReady` | src/dispatcher/eta.go:439-465 | says that a dependency will never end, that one has no end yet, or when the last of them ends, and each answer exactly when it is so |
| `Planner.PlanOne` | src/dispatcher/eta.go:469-518 | one body of the round loop does what `Lay` says: refused for the first reason that applies, left for later because of a dependency that may still be given an end, or given the one best slot; what was settled stays, and the plan stays feasible |
| `Planner.Round` | src/dispatcher/eta.go:468-519 | a round lays out the queue in dispatch order, job by job; one that makes progress leaves fewer jobs unsettled, one that makes none changes nothing |
| `Planner.NobodyIsStuck` | src/dispatcher/eta.go:466-519 | when a round makes no progress every queued job is settled: a job of least rank would have had nothing to wait for |
| `Planner.PlanQueued` | src/dispatcher/eta.go:423-519 | the rounds end, with a feasible plan: the one where a further round in dispatch order would change nothing |
| `Planner.OnePlaceToStop` | src/dispatcher/eta.go:466-519 | there is only one such place, however many rounds are run |
| `Planner.PlanIsUnique` | src/dispatcher/eta.go:361-522 | a queue has one plan: whatever the order in which jobs and robots are walked, the same slots are open at the start and the same estimates come out |
| `Planner.PlanAssigned` | src/dispatcher/eta.go:373-408 | each job under way gets the estimate of its robot (or no duration), overdue ones end now, and its robot is free exactly when it ends (or now, if nobody knows) |
| `Planner.PlansSayWhatIsExpected` | src/dispatcher/eta.go:240-251 | every estimate lasts the mean of its tool when there is one, else the mean of all tools, else the default, and says which; no duration is the reason only when none of the three exists, and of a job under way exactly then; a job under way ends that long after it was given out, or now when it is overdue; a queued one that long after it starts, which is not before now nor before its dependencies end, on a robot that is at hand and has its tool; every other reason says what the fields of robots and dependencies say |
| `Promptness.NoTimeIsWasted` | src/dispatcher/eta.go:434-519 | no estimate of a plan made after the epoch wastes time: a queued job starts now, or when one of its dependencies ends, or when another job ends on its robot; while it waits for a robot every robot with its tool that can work is kept until then by some job of the plan; and each such robot is kept beyond its start or is not nearer |
| `Planner.Plan` | src/dispatcher/eta.go:361-522 | a feasible schedule: exactly the assigned, unknown, pending and blocked jobs, each once in the order list, each with an estimate or the reason that applies; estimated jobs of one robot never overlap; a queued job starts no earlier than now and than the end of each dependency, on a robot that can work and has its tool; a dependency that will not finish is reported exactly when there is one; and it comes from rounds over the queued jobs in dispatch order, each taking the best slot left by those before; durations and their basis are those observed (`Planner.PlansSayWhatIsExpected`) |
| `Engines.Engine.QueueEta` | src/dispatcher/eta.go:260-318 | the plan of the present queue, with the durations observed and no time wasted, the order of the results (jobs under way by submission, lost ones, queued ones in dispatch order), and the time the last estimated job ends; nothing changes |
| `Archiving.DepartingIsLargest` | src/dispatcher/archive.go:55-84 | the old finished jobs with only old finished jobs behind them can go together, and every set that can go is part of it |
| `Archiving.Shrink` | src/dispatcher/archive.go:65-84 | the shrinking candidates end in exactly that set, for every order of the scans |
| `Archiving.Scan` | src/dispatcher/archive.go:70-83 | one scan takes out only jobs that cannot go, and says so exactly when it took one out |
| `Invariants.ArchiveKeepsVerdicts` | src/dispatcher/archive.go:55-84 | no status computation of a job that stays can tell the difference |
| `Engines.Engine.ArchiveFinished` | src/dispatcher/archive.go:55-105 | the store first; a failed write changes nothing; then exactly that set leaves the queue, with its keys and stop requests; in the fields: all the jobs that may leave, and no others |
| `Promises.ArchiveKeepsPromise` | src/dispatcher/archive.go:55-105 | the jobs that leave are done, failed or cancelled, ended at a known time that is at least the set duration ago, and everything that depends on them leaves too; every set of which that is true is among them; their keys are free, and no other job, key or request changes |
| `Moves.MoveKeepsCore` | src/dispatcher/dispatcher.go:451-1344 | every elementary change keeps the graph, the verdicts, the reservations and the indexes sound; the restart of memory is one only as what loading an agreeing store amounts to (`Restarting.AgreeingStartIsReload`) |
| `Invariants.AbandonKeepsCore` | src/dispatcher/replan.go:57-69 | giving a job back needs no recomputation of the verdicts of others: the job is pending again, because it was given out only when its dependencies were done |
| `Invariants.MarkUnknownKeepsCore` | src/dispatcher/dispatcher.go:1304-1320 | marking a job unknown needs no recomputation either |
| `Invariants.RetryKeepsCore` | src/dispatcher/dispatcher.go:576-610 | a retry with new dependencies that do not reach the job keeps the graph acyclic and all verdicts true |
| `Workings.OperationIsMoves` | src/dispatcher/dispatcher.go:442-1344 | every public operation is a sequence of legal elementary changes, and so is loading a store that agrees with memory |
| `Writing.OneBatchIsAtomic` | src/dispatcher/dispatcher.go:259-290 | an operation written in one transaction counts as one write, and a stop before or after it leaves a store that agrees with memory as it was or as it is |
| `Restarting.StartIsSoundIffStoreIs` | src/dispatcher/dispatcher.go:313-346 | a start from a store gives a sound engine if and only if the stored records are sound: numbers distinct, no dangling or circular dependency, verdicts true, assigned jobs on registered unavailable robots, one each; indexes and counter are rebuilt right in any case |
| `Restarting.AgreeingStartIsReload` | src/dispatcher/dispatcher.go:313-346 | while the store agrees with memory, loading it gives back the same jobs, the robots (with removed ones, if the store cannot forget), and nothing that lives in memory only |
| `Runs.OnlyRestartsCanHarm` | src/dispatcher/dispatcher.go:313-346 | a run, whatever writes fail in it, keeps the graph, the verdicts, the reservations, the indexes and the stop requests sound all along if and only if every restart in it loads sound records |
| `Restarting.AccountsSurviveIffStoriesAgree` | src/dispatcher/dispatcher.go:313-346 | after a restart the counters agree with the history if and only if every record has the attempt, the state and the robot of its job, and the load of its robot, that memory had |
| `Runs.OnlyRestartsCanForget` | src/dispatcher/dispatcher.go:313-346 | the counters of a run agree with its history all along if and only if every restart in it finds sound records that tell what memory tells |
| `Runs.RecountableIsAttainable` | src/dispatcher/dispatcher.go:313-346 | such runs are among those that keep memory consistent |
| `Runs.ReachableIsRecountable` | src/dispatcher/dispatcher.go:313-346 | restarting only while no write has failed since the store last agreed with memory is enough for both |
| `Runs.StoreKnowsEveryJob` | src/dispatcher/dispatcher.go:358-400 | in every run, whatever writes fail and whatever its restarts load, the store holds exactly the jobs of memory under their keys and numbers; numbers differ while restarts load sound records |
| `Runs.StoreAgreesUnlessAWriteFailed` | src/dispatcher/dispatcher.go:313-346 | after any run that restarts only while no write has failed since the two last agreed, the store agrees with memory if and only if no write has failed since it last did; then a restart gives a sound engine with the same jobs |
| `Mishaps.ALostRetryMakesACycle` | src/dispatcher/dispatcher.go:576-610 | a run of six operations in which one write fails, with no cycle in memory, whose store a restart loads as a cycle of two jobs |
| `Mishaps.ALostReportSharesARobot` | src/dispatcher/dispatcher.go:1133-1147 | a run in which the write of a report fails and its robot gets the next job; a restart loads both jobs as assigned on that robot |
| `Runs.GraphIsAlwaysSound` | src/dispatcher/dispatcher.go:462-578 | in every attainable state every dependency names a live job and there is no circular chain |
| `Runs.VerdictsAreAlwaysTrue` | src/dispatcher/dispatcher.go:810-862 | in every attainable state the stored status of a pending, blocked or unreachable job is the computed one, also after the operations that never recompute; with its meaning as in Blocking.RefreshedMeaning |
| `Runs.WorkOnlyStartsWhenReady` | src/dispatcher/dispatcher.go:874-965 | in every attainable state an assigned, unknown, done or failed job has only done dependencies |
| `Runs.MoveKeepsDone` | src/dispatcher/dispatcher.go:806-828 | no elementary change alters a done job, and only the archive removes one; loading a store that missed the report is not among the changes, and brings the job back (`Mishaps.ALostReportIsCountedTwice`) |
| `Runs.OperationKeepsDone` | src/dispatcher/dispatcher.go:806-828 | no public operation alters a done job |
| `Mishaps.ALostReportIsCountedTwice` | src/dispatcher/dispatcher.go:1133-1147 | a run in which the write of a report fails and a restart follows: the records are sound, the done job is assigned again, the report of the same attempt is accepted again, and the history holds two completions of one attempt |
| `Runs.RobotsAreNeverShared` | src/dispatcher/dispatcher.go:689-762 | in every attainable state a robot has one assigned job at most, such a robot is registered and not available, and a robot that reported itself unavailable is not available |
| `Lives.AttemptsAreConserved` | src/dispatcher/dispatcher.go:1062-1147 | in a well-formed history a life has as many attempts as accepted reports, abandoned assignments and the present one together |
| `Lives.AttemptsReadInOrder` | src/dispatcher/dispatcher.go:1062-1147 | the announced events of each attempt read: assigned, at most one unknown, at most one done or failed, all on one robot |
| `Runs.AttemptsAreAccountedFor` | src/dispatcher/dispatcher.go:874-1147 | both hold of the attempt counter and history of every job in every recountable state |
| `Runs.LoadsCountReports` | src/dispatcher/dispatcher.go:1098-1101 | in every recountable state the load of a robot is the load it joined with plus the reports accepted from it since |
| `Runs.ReportsEndOneJob` | src/dispatcher/dispatcher.go:1062-1147 | an accepted report ends its own job, counts once on its own robot, frees that robot unless it has another assigned job or reported itself unavailable, and changes other jobs in verdict only |
| `Runs.HeartbeatsRespectReservations` | src/dispatcher/dispatcher.go:681-748 | a heartbeat never overwrites the load, never frees a reserved robot, and touches no job unless the robot faulted in the middle of one and faults give work back; then its assigned job, and no other, is pending again |
| `Runs.KeysIdentifyJobs` | src/dispatcher/dispatcher.go:558-617 | in every attainable state, when keyed jobs enter through SubmitJob only, each key belongs to one live job and the index names exactly that job, also after archiving and after restarts that lost writes |
| `Runs.KeysSurvive` | src/dispatcher/dispatcher.go:329-337 | a start rebuilds the very key index memory had, in whatever order records come and whatever writes the store missed |
| `Runs.ResubmissionIsSafe` | src/dispatcher/dispatcher.go:558-617 | in every attainable state submitting the key of a live job never adds a job, and changes nothing unless that job failed or was cancelled |
| `Runs.SweepRespectsConfirmedStops` | src/dispatcher/stopconfirm.go:82-106 | in every attainable state the sweep gives back the job of a silent robot that can confirm stops only when unconfirmed stops are allowed and a request for this robot and attempt has timed out; with them disallowed, never: whenever such a job is pending after the sweep, the history of its present life holds that request, with a deadline later than when it was asked and not later than now |
| `Runs.SweepDoesWhatItReports` | src/dispatcher/dispatcher.go:1253-1301 | exactly the jobs listed as requeued become pending and those listed as unknown become unknown; every other job stays as it is |
| `Runs.AckTakesBackTheAskedAssignment` | src/dispatcher/stopconfirm.go:130-149 | in every attainable state an accepted confirmation takes back the very assignment its request was made for: the request is in the history of the present life, for the present robot and attempt |
| `Runs.ListedRequestsAreAcceptedIfFresh` | src/dispatcher/stopconfirm.go:110-149 | a confirmation is accepted if and only if its request is listed for that robot and was made for the present attempt |
| `Mishaps.AListedRequestMayBeStale` | src/dispatcher/stopconfirm.go:110-123 | a run, without a failed write, that ends with a request listed for the robot that has the job and a confirmation refused because the request was made for an earlier attempt |
| `Runs.ReplanGivesBackEverything` | src/dispatcher/replan.go:108-121 | declaring a robot failed makes exactly the jobs it holds pending, leaves every other job alone, holds the robot, and finds nothing the second time |
| `Engines.Engine.JobsHeldBy` | src/dispatcher/dispatcher.go:783-801 | the pruned index returns exactly the jobs that name the robot, as a scan would, and stays complete |
| `Engines.Engine.RobotIsBusy` | src/dispatcher/dispatcher.go:755-762 | true exactly when an assigned job names the robot |
| `Engines.Engine.JobsOf` | src/dispatcher/replan.go:73-82 | the jobs in flight on a robot in submission order |
| `Engines.Engine.AddJob` | src/dispatcher/dispatcher.go:442-488 | refuses as the source does, in its order; saved before it enters the queue, with the computed status, and keeps the invariant; in the fields: refused exactly for a bad shape, a taken id, an unknown dependency or a failed write, and otherwise the job returned is the one in the queue and in the store, with the priority, tool, place, dependencies and key submitted, and every other job as it was |
| `Engines.Engine.SubmitJob` | src/dispatcher/dispatcher.go:558-617 | new job, duplicate, refusal or retry, each with its whole new state and answer; in the fields: a new key is answered as by AddJob, and a retried job has the priority, tool, place and dependencies submitted now and remains the job it was, while others change in verdict only |
| `Promises.AddKeepsPromise` | src/dispatcher/dispatcher.go:451-488 | which submissions are refused and why, each reason exactly when it applies, and what the queue holds after one that is not, field by field |
| `Promises.RetryKeepsPromise` | src/dispatcher/dispatcher.go:558-617 | a key in use changes nothing unless its job failed or was cancelled; then the dependencies are refused exactly when ill-formed, unknown or turning back to the job; otherwise that job is submitted again in place |
| `Engines.Engine.Resubmit` | src/dispatcher/dispatcher.go:576-610 | a retry resets the job under its own id and recomputes every verdict |
| `Engines.Engine.RequeueJobLocked` | src/dispatcher/replan.go:57-69 | the robot is held, the request withdrawn, the job back in the queue with its computed status |
| `Engines.Engine.RequeueAll` | src/dispatcher/replan.go:86-101 | every listed job goes back within one batch, which ends with the store in agreement when nothing failed, and is one transaction of exactly these jobs in a store that has them |
| `Engines.Engine.RequeueJob` | src/dispatcher/dispatcher.go:1189-1210 | the refusals in their order, or the job pending again with its robot held and everything else as it was, said in the fields; a store with transactions sees one new state at most |
| `Promises.RequeueKeepsPromise` | src/dispatcher/dispatcher.go:1189-1210 | each refusal exactly when it applies, a mismatch being a robot stated that is not the one of the job; a job in flight goes back and a waiting one stays as it is |
| `Engines.Engine.ReplanRobot` | src/dispatcher/replan.go:108-121 | the refusals, or exactly the jobs the robot holds, in submission order: each is pending again, the robot is held, and nothing else changes; a store with transactions sees one new state at most |
| `Promises.ReplanKeepsPromise` | src/dispatcher/replan.go:108-121 | each refusal exactly when it applies; the ids answered are those of the jobs under way on the robot, oldest first, and just these are pending again with the robot held |
| `Engines.Engine.AckStop` | src/dispatcher/stopconfirm.go:130-149 | the refusals in their order, or the job given back, each exactly when it applies; a store with transactions sees one new state at most |
| `Promises.AckKeepsPromise` | src/dispatcher/stopconfirm.go:130-149 | a confirmation is accepted if and only if replanning is on, the job is in flight on that robot, and a request is open for this robot and this attempt; then the job is pending again and its robot held, and otherwise nothing changes |
| `Engines.Engine.StopRequests` | src/dispatcher/stopconfirm.go:110-123 | lists exactly the requests whose job is in flight on the robot they name, with robot, time and whether they expired, in the order of the jobs; every request AckStop would accept is among them (the converse does not hold) |
| `Engines.Engine.CompleteJobAttempt` | src/dispatcher/dispatcher.go:1062-1147 | the refusals in their order (attempt 0 matches any), or the job ended, the load counted, the robot freed unless busy or self-reported unavailable, and every verdict recomputed; memory changes if and only if the job is in flight on the reporting robot, on the attempt stated if any, and the robot is registered; a store with transactions sees one new state at most |
| `Promises.ReportsAreChecked` | src/dispatcher/dispatcher.go:1077-1095 | a report changes memory if and only if its job is in flight, names the reporting robot, the attempt is that of the job or not stated, and the robot is registered; each error is answered exactly when its condition is the first to fail |
| `Promises.LateReportsAreRefused` | src/dispatcher/dispatcher.go:1056-1090 | in every recountable state: the report of an attempt that was abandoned, or was reported before, in the present life of the job changes nothing, whichever robot sends it and whatever it says |
| `Engines.Engine.CancelJob` | src/dispatcher/dispatcher.go:1157-1181 | a job no robot has is withdrawn and other jobs change in verdict only; in flight and finished ones are refused; a store with transactions sees one new state at most |
| `Promises.CancelKeepsPromise` | src/dispatcher/dispatcher.go:1157-1181 | each answer exactly when it applies; a waiting job is cancelled from now on, everything else about it and all other jobs staying but for verdicts |
| `Engines.Engine.UpsertRobot` | src/dispatcher/dispatcher.go:689-748 | a first registration, or a heartbeat: a reservation wins over the declared availability, a fault declared during a job is remembered and, when replanning on faults is on, gives the job back; said field by field |
| `Promises.UpsertKeepsPromise` | src/dispatcher/dispatcher.go:689-748 | place, tool and stop capability are as declared and the robot was heard from now; a new robot has the availability and load declared; a known one keeps its load, and its availability is as declared only when it has no assigned job and the heartbeat states one; no other robot changes, and no job but one given back by a fault |
| `Engines.Engine.UpdateRobot` | src/dispatcher/dispatcher.go:654-674 | what a partial heartbeat says is noted, and what it leaves out stays as the registry has it, or is empty for a new robot, field by field |
| `Engines.Engine.RemoveRobot` | src/dispatcher/dispatcher.go:1326-1344 | refused while a job in flight names the robot; the store forgets first, and a failure there changes nothing; otherwise the robot and nothing else is gone |
| `Promises.RemoveKeepsPromise` | src/dispatcher/dispatcher.go:1326-1344 | each answer exactly when it applies: unknown, in use by a job under way, not forgotten by the store, or removed |
| `Engines.Engine.DetectStale` | src/dispatcher/dispatcher.go:1253-1301 | the whole sweep: requests of robots that are back are withdrawn, silent ones are decided one by one, and the report lists what was done; job by job, over the heartbeats themselves, as `Promises.SweepKeepsPromise` says |
| `Promises.SweepKeepsPromise` | src/dispatcher/dispatcher.go:1253-1301 | for every job, over the time its robot was last heard from: one whose robot was never heard from, or within the timeout and not more than a minute ahead, stays exactly as it is, loses its stop request and is listed nowhere; with replanning on silence off every other assigned job becomes unknown; with it on it is taken away, asked for, left waiting or given up, each exactly when the capability of the robot, the open request, its deadline and the settings say so; no other job changes |
| `Engines.Engine.DecideStop` | src/dispatcher/stopconfirm.go:82-106 | gives back, asks, waits or gives up, and records a request or its expiry |
| `Engines.Engine.MarkUnknownLocked` | src/dispatcher/dispatcher.go:1304-1320 | every listed job becomes unknown, each announced once |
| `Engines.Engine.RobotsToAsk` | src/dispatcher/toolconfirm.go:95-108 | the first lock section asks only available robots, nobody while the check is off, and every robot that could be given any job after any answer of its controller |
| `Engines.Engine.ConfirmTools` | src/dispatcher/toolconfirm.go:109-134 | the second lock section, on whatever the registry has become: robots that are gone are forgotten, asked ones have the new answer or none, and every other answer stays |
| `Promises.ToolsKeepPromise` | src/dispatcher/toolconfirm.go:109-134 | robot by robot: a robot asked carries what it answered just now or nothing, one not asked what it carried if it is still registered |
| `Engines.Engine.PersistJob` | src/dispatcher/dispatcher.go:358-367 | outside a batch one write, inside a batch none; either way the store stays in agreement but for the records still listed |
| `Promises.KeptIsTheRest` | src/dispatcher/dispatcher.go:91-106 | what the store keeps of a robot is all but what it declares about itself with every heartbeat |
| `Promises.MillisAreWhole` | src/dispatcher/dispatcher.go:469 | times are kept in whole milliseconds, rounded down |
| `Engines.Engine.CommitBatch` | src/dispatcher/dispatcher.go:259-290 | final values of everything collected are written: in one transaction, of all of them or none, when the store has those, and record by record otherwise; it succeeds exactly when no write failed, and then ends in agreement |
| `Engines.Engine.FromStore` | src/dispatcher/dispatcher.go:313-346 | a start from any store: the stored jobs with their sequence numbers, the stored robots, agreeing indexes, and a counter above every number in use; the engine is fit for use if and only if the records are sound, its accounts go on if and only if they tell what memory told, and both are so while the store agrees |
| `EventHubs.BeginsWhereAsked` | src/dispatcher/events.go:211-219 | a subscription begins at the event after the asked id exactly when the buffer covers it |
| `EventHubs.EventHub.Publish` | src/dispatcher/events.go:187-207 | the event gets the next number, the ring keeps the most recent ones, and exactly the subscribers with room get it, the others being dropped; disabled, nothing changes |
| `EventHubs.EventHub.HandOut` | src/dispatcher/events.go:199-206 | the loop over the subscribers, in any order |
| `EventHubs.EventHub.Subscribe` | src/dispatcher/events.go:211-219 | replays exactly the buffered part of the log after the asked id and joins the subscribers at the end of the log |
| `EventHubs.EventHub.Cancel` | src/dispatcher/events.go:220-228 | the channel is closed once, and what it holds stays readable |
| `EventHubs.Channel.Offer` | src/dispatcher/events.go:200-205 | a send without waiting succeeds exactly when there is room or a reader waits, and appends to what the reader is given |
| `EventHubs.Channel.Receive` | src/dispatcher/events.go:211-219 | a reader takes the oldest queued event; a closed channel first gives what is queued |
| `EventHubs.EventHub.Take` | src/dispatcher/events.go:211-219 | reading leaves the hub and what the reader was promised as they are; a closed channel that is read to the end has given everything |
| `EventHubs.StreamsHaveNoGaps` | src/dispatcher/events.go:187-229 | replay and channel together are consecutive events without gap or repetition, for dropped and cancelled subscribers too, and what was read is a prefix |
| `EventHubs.ReconnectingJoins` | src/dispatcher/events.go:209-219 | what was read, followed by the stream of a new subscription from the last id read, is the published log exactly when the buffer covered that id |
| `Boards.IdsDiffer` | src/dispatcher/maintenance.go:177-179 | ids with different numbers differ, whenever they were made |
| `Boards.OneOpenPerSource` | src/dispatcher/maintenance.go:155-183 | at most one open proposal per source; ids and job keys of different proposals differ |
| `Boards.ProposingKeeps` | src/dispatcher/maintenance.go:137-183 | a proposal keeps the list sound, at most MaxOpen open, and a cooldown between the end of one proposal and the next of its source; decided ones never change |
| `Boards.ClosingKeeps` | src/dispatcher/maintenance.go:119-131 | closing proposals, by expiry or by a person, keeps the same |
| `Boards.MaintenanceBoard.ExpireLocked` | src/dispatcher/maintenance.go:119-131 | exactly the open proposals older than the limit are closed now, and their sources ended now; every other proposal and source stays as it was |
| `Boards.ExpiryKeepsPromise` | src/dispatcher/maintenance.go:119-131 | the same of the functions the board is specified by, in the fields of the proposals |
| `Boards.ProposingKeepsPromise` | src/dispatcher/maintenance.go:137-183 | the open proposal of the source has the new score, drift, reason and time and nothing else new; without one the refusals come exactly during the cooldown, then when the open ones are as many as may be; else a proposal with what was declared and an id of its own is added |
| `Boards.SubmissionKeepsPromise` | src/dispatcher/maintenance.go:225-230 | the job of an approved proposal: with a key no live job has it is new, named after the proposal, with the priority, tool and place of the settings and no dependencies; a live job with the key is retried so, or is the answer as it is |
| `Boards.ApprovalKeepsPromise` | src/dispatcher/maintenance.go:213-235 | an id is unknown exactly when no proposal has it and decided exactly when one that is not open has it; a refusal leaves board and queue as they are; an approval closes that proposal now, by that person, naming its job |
| `Boards.MaintenanceBoard.Propose` | src/dispatcher/maintenance.go:137-183 | the refusals in their order, new evidence for the open proposal of the source, or a new proposal, field by field |
| `Boards.MaintenanceBoard.Approve` | src/dispatcher/maintenance.go:213-235 | the refusals; or the engine is asked for the job, and only if it accepts is the proposal closed, naming a live job that carries its own key and, when new, the priority, tool and place of the settings; otherwise the error is the engine's and nothing changes |
| `Boards.MaintenanceBoard.Reject` | src/dispatcher/maintenance.go:238-254 | the refusals, or the proposal closed now, by that person, with the reason given and without a job |
| `Boards.MaintenanceBoard.OpenLocked` | src/dispatcher/maintenance.go:200-210 | the first proposal with the id, unknown, or already decided |
| `Boards.MaintenanceBoard.List` | src/dispatcher/maintenance.go:186-198 | the proposals of a stage, newest first, in list order among equals, each once |
| `Boards.FindMeans` | src/dispatcher/maintenance.go:200-210 | the search by id finds the first match or proves there is none |
| `Mqtt.RemainingLength` | src/dispatcher/mqttstate.go:64-77 | the loop writes seven bits a byte, least significant first |
| `Mqtt.LengthIsRead` | src/dispatcher/mqttstate.go:64-77 | reading it back gives the number and what follows, for every number |
| `Mqtt.LengthIsMinimal` | src/dispatcher/mqttstate.go:64-77 | no encoding of the number is shorter |
| `Mqtt.LengthIsWritten` | src/dispatcher/mqttstate.go:64-77 | every encoding without a needless zero group at the end is the written one |
| `Mqtt.FourBytesAreEnough` | src/dispatcher/mqttstate.go:64-77 | four bytes are enough exactly up to 268435455, and a reader that stops at four bytes understands exactly those |
| `Mqtt.StringIsRead` | src/dispatcher/mqttstate.go:58-62 | a string is read back exactly when it is shorter than 65536 bytes |
| `Mqtt.ConnectPacket` | src/dispatcher/mqttstate.go:80-94 | the packet is a fixed header, the length and the body of flags and strings |
| `Mqtt.ConnectIsUnderstood` | src/dispatcher/mqttstate.go:80-94 | a server reads back client id, user name and password, with clean session and keep alive of 30 s, if and only if every string sent is shorter than 65536 bytes; a password without a user name is not sent |
| `Mqtt.PublishPacket` | src/dispatcher/mqttstate.go:97-100 | the packet is a fixed header, the length, the topic and the payload |
| `Mqtt.PublishIsUnderstood` | src/dispatcher/mqttstate.go:97-100 | a server reads back topic and payload, retained, at quality of service 0, if and only if the topic is shorter than 65536 bytes and the body at most 268435455 |

## Left out

- Aliasing: the source keeps pointers to jobs and robots in several maps at once; here they are values in one map, replaced in place.
- Integer widths: counters, milliseconds and loads are unbounded integers; `int64` overflow and the saturation of `time.Duration` are not modelled.
- An engine without a store: modelled as an engine whose store never fails and keeps no archive.
- `lastPersistErr` and `recordPersistOutcome`: the last write error is reported to health checks and decides nothing.
- The order of the records inside one batch when the store has no transaction: arbitrary here, sorted in the source.
- Crashes in the middle of a retry, a heartbeat that gives work back, or a sweep, and of any batch in a store without transactions: the order of those writes is open here, so only their end is compared with memory.
- Runs.GraphIsAlwaysSound: not after a restart from unsound records, where it is false (`Mishaps.ALostRetryMakesACycle`).
- Runs.VerdictsAreAlwaysTrue: not after a restart from unsound records; a start recomputes no verdict.
- Runs.WorkOnlyStartsWhenReady: not after a restart from unsound records.
- Runs.RobotsAreNeverShared: not after a restart from unsound records, where it is false (`Mishaps.ALostReportSharesARobot`).
- Runs.AttemptsAreAccountedFor: not after a restart from records that missed an attempt, where it is false (`Mishaps.ALostReportIsCountedTwice`).
- Runs.LoadsCountReports: not after a restart from a record that missed a report.
- Runs.KeysIdentifyJobs: not after a restart from unsound records; that the store knows every job holds even then.
- Runs.ResubmissionIsSafe: not after a restart from unsound records.
- Runs.AckTakesBackTheAskedAssignment: not after a restart from unsound records.
- Runs.SweepRespectsConfirmedStops: not after a restart from unsound records.
- Runs.MoveKeepsDone: a restart from a store that missed the report is not a change of memory.
- Engines.Engine.SetConfig: the separate setters of freshness, replanning, tool confirmation, archiving and locations are one step here, and validation of their arguments is not modelled.
- Engines.Engine.UpsertRobot: tool catalog warnings are not modelled.
- Engines.Engine.CompleteJobAttempt: production events sent after the lock is released are not modelled.
- Engines.Engine.QueueEta: the ranges (`src/dispatcher/eta.go:280-313`) are not modelled.
- Promptness.NoTimeIsWasted: for clocks after the Unix epoch; the source takes an end at or before time 0 for none (`src/dispatcher/eta.go:403-405`).
- Planner.Plan: takes the durations as given; the averages of recent jobs (`src/dispatcher/eta.go:175-214`) depend on map order when completion times tie at the edge of the window, and percentiles and ranges are floating-point statistics.
- EventHubs.EventHub.Subscribe: one reader per channel.
- Boards.MaintenanceBoard.Propose: scores are exact reals or not finite.
- Mqtt.ConnectPacket: that strings are well-formed UTF-8, and dialing, TLS and the reply of the broker, are not modelled.
- Webhook delivery, signatures, production-event sinks, tool fetching and proposal verification: network and cryptography.
- Pages of jobs, lists of robots and the state counts of `src/dispatcher/state.go`: selections and counts over the queue, which would add easy members only.
- HTTP handlers, configuration files, metrics, the SQLite store and the Python tooling.
