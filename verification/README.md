# A verified model of the BKK arrivals server

The server answers "which vehicles leave this stop next" over a UNIX socket. A pool of worker
threads takes client descriptors from a queue; each worker looks the stop up in a shared cache,
replies at once on a hit (and starts a detached refresh when the hit is stale), or fetches from
the BKK API on a miss, parses the JSON answer and stores it. This project models that server in
Dafny and proves what it keeps over all interleavings of its threads, all clock behaviours and all
upstream answers.

`dafny verify dfyconfig.toml` checks everything.

## Reading order

| file | content |
|---|---|
| `CStrings.dfy`, `ArrivalTypes.dfy`, `Rounding.dfy`, `Json.dfy` | C strings and buffers, the arrival record, minute arithmetic, the JSON tree |
| `ResponseParser.dfy`, `BkkApi.dfy` | from an upstream answer to a list of arrivals and a status |
| `CacheSpec.dfy`, `UdsCache.dfy` | the cache on values and as the mutable object it is |
| `ServerModel.dfy` | threads, queue, cache and detached refreshes as one step system |
| `Scheduling.dfy`, `Tickets.dfy` | wake-ups, exactly-once handling, one receipt and one lookup for each task |
| `Shutdown.dfy`, `Draining.dfy` | how many steps the threads can take, where the pool gets stuck and what it has served then |
| `Sequential.dfy` | what one thread does without another in between, as a run of the step system |
| `Replies.dfy`, `Linearizability.dfy`, `Refinement.dfy` | provenance of replies, the cache seen from outside, the server against a simple one |
| `ThreadPool.dfy` | the pool as an object whose methods take it along runs of the step system |
| `Witnesses.dfy` | short runs that any pool can take |
| `Limits.dfy`, `Stamps.dfy`, `CacheGrowth.dfy` | where the server differs from one that never sweeps, when clock readings stay in order, how large the cache gets |
| `ArgParser.dfy`, `Deployment.dfy` | the command line and what an accepted one guarantees |
| `StopUtils.dfy` | searches in the stop table, trimming of the key file |
| `Options.dfy`, `Sums.dfy` | an option type and weighted sums over sequences |

## How the server is modelled

`ServerModel.State` holds the queue, the stop flag, the phase of every worker, the detached
refreshes, the clock and the cache, together with sequences that only record what happened.
`ServerModel.Apply` gives the effect of one event. Every critical section of the source is one
event: the push of `submit` and its later `notify_one`, one evaluation of the wait predicate with
the pop, the lookup, the insert and (separately) the sweep of `put_element`, setting `stop` and
`notify_all`. Receiving, fetching, reading the clock, sending and closing are events too.
`Run` chains events in any order, and `Reachable` is what some run leads to.

* `wait`, `notify_one` and `notify_all` follow section [thread.condition.condvar] of C++17:
  waiters may wake spuriously, and a notification without a waiter is lost.
* The clock is any non-decreasing integer of nanoseconds, as in section [time.clock.steady] of C++17.
* A task is identified by its ticket, the index of its submission, because descriptors are reused.
* Upstream is an oracle: any failure, any HTTP code with any JSON tree or none, or an exception
  that leaves any partial list behind (`BkkApi.Transport`).
* Receiving blocks until the client sends or hangs up. Fetching ends by its timeout at the latest and
  a reply fits the socket buffer, so these count as steps the pool takes by itself.
* The detached refresh of a stale hit begins with the lookup step itself. The source starts its thread
  a little later, after the cache lock is released and before the reply; since the first step of a
  refresh may come at any time, every order of the source is a run of the model.
* Submissions after `stop` are allowed in the step system; claims about draining concern the tasks
  submitted before it.
* `(int)` casts of sizes are explicit (`AsInt32`). A `char` stands for one byte. JSON numbers are
  exact reals.

## Main results

* The swept cache cannot be told from a map that is never swept, and this holds exactly when the
  freshness window is not positive or not longer than the staleness window
  (`SweepInvisibleExactly`). The option parser refuses every other command line
  (`AcceptedSettingsHideTheSweep`), so a configured server is linearizable
  (`ConfiguredServerIsLinearizable`) and has the same runs, replies and refreshes as one that never
  sweeps (`ServerRefinesPlainServer`; a pool with a thread exactly then, `ServerRefinesExactly`).
* Every Ok reply shows a genuine successful fetch for the same stop, made by the request itself or
  younger than the window of the reported cache state at the one lookup of its task
  (`OkRepliesAreJustified`), and the replies themselves are linearizable (`RepliesAreLinearizable`).
* No wake-up is lost, and every task is taken in order and closed at most once. No run takes more
  steps than the work that came in (`WorkIsBounded`), before and after `stop`
  (`ShutdownTerminates`).
* A receive has no timeout, so a client that stays silent holds its worker for ever. Without the
  clients' help the pool always ends where it can do nothing more (`OwnStepsEnd`). A running pool has
  then served everything exactly when no worker waits for its client (`RunningPoolServesExactly`); a
  stopped one has served what came before `stop`, if anything did, exactly when it has a thread and
  no worker waits for a client from before `stop`, and its joins return exactly when no worker waits
  (`StoppedPoolDrainsExactly`). As many silent clients as threads leave any pool stuck with nobody
  served, running and stopped (`SilentClientsHoldThePool`).
* If every client sends or hangs up, a pool with a thread serves everything and shuts down
  (`RunningPoolServesAll`, `ShutdownReachesExit`, `DrainsExactlyWithAThread`). The source takes the
  thread count from the hardware concurrency, which may be reported as zero.
* The puts of one stop come in the order of their clock readings, and a cached entry is never older
  than one put before it, exactly for a pool without a thread and for a pool of one thread whose
  windows rule out stale hits (`StampsGrowExactly`). The clock is read before the insert lock is
  taken, so two workers that refresh one stop can overtake each other; with the default windows one
  worker is enough, because two stale hits start two detached refreshes of one stop.
* While every fetch of one stop fails, and none was under way to its insert before, nothing is put
  for it and its lookups only age, whatever the refreshes of other stops do
  (`FailuresLeaveNoTrace`). Puts match successful fetches one to one (`RefreshesAreCounted`).
* The number of cached stops is bounded over all runs exactly when the pool has no thread or the
  staleness window is not positive (`BoundedExactly`), and then exactly by the number of threads
  (`NeverExceedsExactly`).
* The straight-line handler of a client is one run of the step system, with the same reply, cache
  and detached refresh (`UninterruptedHandlerIsRun`, `HandleClient`).
* Parser status and output are characterised for every JSON tree, and each field of an emitted arrival
  is traced to its place in the tree (`TimestampIsPredictedElseScheduled`, `LineReadsBack`,
  `DestinationReadsBack`, `VehicleTypeIsRouteType`, `MinutesOfBody`). Each failure of a station lookup
  has exactly one cause (`StationFailsExactly`).
* A reply is fetched only when the entry put last for its stop had left both windows, or there was
  none (`RepliesFollowTheLastPut`).

## Where code and documentation disagree

* `bkk_uds_server/README.md` documents `-k <path>`; the option string does not contain it, so the
  option is an error in the model as in the code.
* The documented maximum cache size is parsed and stored but never enforced: under every accepted
  command line every pool with a thread has a run that caches more stops
  (`MaxCacheSizeIsNotEnforced`). The only bound is the one by time in `SweepIsExact`.

## Model

| member | source | states |
|---|---|---|
| CStrings.FillBuffer | bkk_uds_server/bkk_response_parser.cpp:246-255 | the `strncpy` loop with the forced terminator leaves exactly the truncated text followed by zeros |
| CStrings.BufferReadsBack | bkk_uds_server/bkk_response_parser.cpp:246-255 | a filled buffer reads back as the source, cut to leave room for the terminator, and all after it is zero |
| CStrings.IsSpaceExactly | bkk_uds/bkk_stop_utils.c:50-62 | white space is the blank and the characters 9 to 13 |
| CStrings.AsInt32Exactly | bkk_uds_server/bkk_response_parser.cpp:174-176 | a cast count is the `int` that differs from it by a multiple of 2 to the 32 |
| ArrivalTypes.VehicleNamesRoundTrip | bkk_uds/bkk_api_arrival.h:41-62 | parsing inverts printing on every vehicle type; printing a parsed name returns it if some type prints so, else "UNKNOWN" |
| ArrivalTypes.NamesOfTypes | bkk_uds/bkk_api_arrival.h:41-62 | the name of each vehicle type |
| ArrivalTypes.EmptyArrivalIsZero | bkk_uds_server/bkk_thread_pool.cpp:105-110 | an unused slot of a reply is all zeros |
| Rounding.TruncateTowardsZero | bkk_uds_server/bkk_response_parser.cpp:206-211 | the integer cast of a time keeps the sign and loses less than one second of magnitude |
| Rounding.RoundIsTheRounded | bkk_uds_server/bkk_response_parser.cpp:217-219 | the result of rounding is the one nearest integer, ties away from zero, and nothing else is |
| Rounding.MinutesAreNearest | bkk_uds_server/bkk_response_parser.cpp:217-219 | 60 times the minutes is within 30 seconds of the true distance, ties away from zero |
| Rounding.MinutesAreMonotone | bkk_uds_server/bkk_response_parser.cpp:217-219 | a later departure never gets fewer minutes |
| Rounding.MinutesAreAntisymmetric | bkk_uds_server/bkk_response_parser.cpp:217-219 | departures mirrored around the API time get opposite minutes |
| Rounding.MinutesFitInt | bkk_uds_server/bkk_response_parser.cpp:218-219 | the exact range of distances whose minutes fit the `int` they are cast to |
| Json.FindIsFirstMatch | bkk_uds_server/bkk_response_parser.cpp:21-34 | a member lookup finds the first member of that name, and nothing only if there is none |
| ResponseParser.LookupsFollowPaths | bkk_uds_server/bkk_response_parser.cpp:13-109 | the three staged lookups return what stands at the end of the path trips/id/routeId, routes/id/shortName and routes/id/type |
| ResponseParser.FindRoute | bkk_uds_server/bkk_response_parser.cpp:194-200 | line text is the short name of the route of the trip, else its id, else "n.a."; the type is that of the same route |
| ResponseParser.FindDestination | bkk_uds_server/bkk_response_parser.cpp:233-243 | destination is the headsign of a named trip, else "?" |
| ResponseParser.FillArrival | bkk_uds_server/bkk_response_parser.cpp:245-258 | the record holds the three truncated texts and the other fields unchanged |
| ResponseParser.ConvertStopTime | bkk_uds_server/bkk_response_parser.cpp:180-261 | one loop pass yields the image of a usable stop time, with the predicted arrival if that is a number and else the scheduled one, and skips any other |
| ResponseParser.LocateStopTimes | bkk_uds_server/bkk_response_parser.cpp:123-172 | the staged exits report the first missing piece, or the API time, references and stop times found at their paths |
| ResponseParser.ConvertStopTimes | bkk_uds_server/bkk_response_parser.cpp:174-261 | the skipping loop computes filter-then-map; output length plus skipped count is the number visited |
| ResponseParser.ParseArrivalsResponse | bkk_uds_server/bkk_response_parser.cpp:112-273 | status and output of the whole parser equal the specification, the output being cleared first |
| ResponseParser.UsableExactly | bkk_uds_server/bkk_response_parser.cpp:181-215 | usable are exactly the objects with a numeric predicted or scheduled arrival |
| ResponseParser.OutputIsFilterThenMap | bkk_uds_server/bkk_response_parser.cpp:180-261 | the output is element by element the image of the usable positions |
| ResponseParser.PositionsAreTheUsable | bkk_uds_server/bkk_response_parser.cpp:180-261 | those positions are increasing and are all usable ones and no other |
| ResponseParser.StatusClassifies | bkk_uds_server/bkk_response_parser.cpp:116-272 | each status is reported in exactly one situation, and the output is non-empty exactly for the two successes |
| ResponseParser.SuccessExactly | bkk_uds_server/bkk_response_parser.cpp:263-272 | the parser succeeds exactly when it visits a usable stop time |
| ResponseParser.TextFieldsReadBack | bkk_uds_server/bkk_response_parser.cpp:245-255 | a client reads the first 7 bytes of the line, 63 of the destination and 15 of the time; the line is never empty |
| ResponseParser.VehicleTypePrintsRouteType | bkk_uds_server/bkk_response_parser.cpp:87-108 | a known vehicle type prints as the type text of the route |
| ResponseParser.TimestampIsPredictedElseScheduled | bkk_uds_server/bkk_response_parser.cpp:202-215 | the time stamp is the predicted arrival if that is a number, else the scheduled one, without its fraction; with neither the stop time is skipped |
| ResponseParser.LineReadsBack | bkk_uds_server/bkk_response_parser.cpp:193-200 | the client reads the first 7 bytes of the short name of the route, else of the route id, else "n.a." |
| ResponseParser.DestinationReadsBack | bkk_uds_server/bkk_response_parser.cpp:232-243 | the client reads the first 63 bytes of the headsign of a named trip, else "?" |
| ResponseParser.VehicleTypeIsRouteType | bkk_uds_server/bkk_response_parser.cpp:87-108 | the vehicle type is the one named by the type text of the route of the trip, unknown without such a text |
| ResponseParser.OutputOfBody | bkk_uds_server/bkk_response_parser.cpp:112-261 | each emitted arrival is the image of the usable stop time at its position, made with the references and the time found at their places in the answer |
| ResponseParser.MinutesOfBody | bkk_uds_server/bkk_response_parser.cpp:155-219 | each emitted arrival gives its distance from the time of the answer to the nearest minute, halves away from zero |
| BkkApi.BuildUrl | bkk_uds_server/bkk_api.cpp:39-53 | the loop with the `first` flag joins all parameters and the key by single ampersands |
| BkkApi.QueryRoundTrip | bkk_uds_server/bkk_api.cpp:39-53 | the query cuts back into its parameters exactly when none contains an ampersand |
| BkkApi.NormalisedEqually | bkk_uds_server/bkk_api.cpp:94-97 | prefixing is idempotent, and two stop ids ask for the same stop exactly when equal or differing by the prefix |
| BkkApi.MakeRequest | bkk_uds_server/bkk_api.cpp:25-87 | each status has exactly one cause, by output pointer, key, transport and HTTP code, or the exception is passed on; the URL that is asked for, and none without a key; Ok hands the body on |
| BkkApi.GetArrivalsForStation | bkk_uds_server/bkk_api.cpp:89-154 | status and output of the station lookup equal the specification, and a keyed lookup asks for the URL of its stop |
| BkkApi.StationUrlAsksForStop | bkk_uds_server/bkk_api.cpp:89-154 | that URL, spelled out in full, carries the four fixed parameters, the stop id with its prefix and the key |
| BkkApi.StationOkExactly | bkk_uds_server/bkk_api.cpp:117-154 | Ok exactly for a keyed request answered 2xx with a usable stop time, never with an empty list; failures without an exception leave the output empty |
| BkkApi.StationFailsExactly | bkk_uds_server/bkk_api.cpp:25-154 | each failure has exactly one cause: no key, no handle, no transfer, 401, another code outside 200 to 299, no usable stop time, an exception |
| CacheSpec.InsertKeepsAgreement | bkk_uds_server/bkk_cache.cpp:15-20 | an insert keeps the agreement between the cache and the last put for each stop |
| CacheSpec.SweepKeepsAgreement | bkk_uds_server/bkk_cache.cpp:52-63 | a sweep keeps it |
| CacheSpec.LookupRefinesPlainMap | bkk_uds_server/bkk_cache.cpp:27-49 | with sound windows a lookup on the swept cache answers as on the plain map |
| CacheSpec.LookupExactly | bkk_uds_server/bkk_cache.cpp:27-49 | a lookup hits fresh, hits stale or misses exactly by presence and age in nanoseconds, and a hit copies the entry |
| CacheSpec.SweepExactly | bkk_uds_server/bkk_cache.cpp:52-63 | a sweep keeps exactly the entries younger than the staleness window, unchanged |
| CacheSpec.SweepInvisibleExactly | bkk_uds_server/bkk_cache.cpp:15-63 | no interleaving of inserts, sweeps and waiting tells the cache from the plain map, if and only if the freshness window is non-positive or at most the staleness window |
| CacheSpec.SweepLeavesExactlyTheYoung | bkk_uds_server/bkk_cache.cpp:52-63 | after a sweep exactly the stops whose last put is young are cached, and no more than the puts in the window |
| CacheSpec.LookupsAge | bkk_uds_server/bkk_cache.cpp:35-48 | waiting and sweeping move a lookup only from fresh to stale to miss and keep its entry |
| UdsCacheClass.UdsCache.constructor | bkk_uds_server/bkk_cache.cpp:4-12 | a null configuration keeps 10, 20 and 100; any other is copied |
| UdsCacheClass.UdsCache.Insert | bkk_uds_server/bkk_cache.cpp:17-20 | overwrites the entry of the stop and nothing else |
| UdsCacheClass.UdsCache.RemoveStaleEntries | bkk_uds_server/bkk_cache.cpp:52-63 | erasing while iterating in any order leaves exactly the entries whose age is inside the staleness window |
| UdsCacheClass.UdsCache.PutElement | bkk_uds_server/bkk_cache.cpp:15-24 | insert then sweep; the cached stops are exactly those whose last put is young |
| UdsCacheClass.UdsCache.GetElement | bkk_uds_server/bkk_cache.cpp:27-49 | fresh, stale or a miss exactly by presence and age, equal to the plain map for sound windows; the output is written only on a hit |
| ServerModel.OutsideIsFree | bkk_uds_server/bkk_thread_pool.cpp:27-165 | nothing from outside is ruled out: time, submissions, requests, spurious wake-ups, upstream answers and the start of the destructor |
| Scheduling.TasksAreServedInOrder | bkk_uds_server/bkk_thread_pool.cpp:27-57 | in every run popped tasks followed by the queue are the submissions in order, and each worker serves the descriptor of its ticket |
| Scheduling.ExactlyOnce | bkk_uds_server/bkk_thread_pool.cpp:27-121 | in every run a task is queued, with exactly one worker, or closed once; it gets at most one reply, none if its request came short |
| Scheduling.NoLostWakeUp | bkk_uds_server/bkk_thread_pool.cpp:27-57 | while a worker is blocked the queue is covered by pending notifications and woken workers; after `notify_all` nobody blocks |
| Shutdown.ShutdownTerminates | bkk_uds_server/bkk_thread_pool.cpp:40-171 | after `stop` the number of thread steps in any run, receives included, is bounded by a measure that each step lowers |
| Shutdown.WorkIsBounded | bkk_uds_server/bkk_thread_pool.cpp:27-57 | in every run the threads take no more steps, receives included, than the work at hand plus a fixed amount for each submission, spurious wake-up and `stop` |
| Draining.OwnStepsEnd | bkk_uds_server/bkk_thread_pool.cpp:40-171 | from every state, running or stopped, a bounded number of steps of the pool alone, without a receive, leads to where it can do nothing more, whatever the clients do |
| Draining.StuckTask | bkk_uds_server/bkk_thread_pool.cpp:59-71 | in a pool that can do nothing more, a task is closed exactly once, queued, or held by a worker whose client is silent |
| Draining.StoppedPoolDrainsExactly | bkk_uds_server/bkk_thread_pool.cpp:40-71 | a stopped pool that can do nothing more has served everything submitted before `stop` if and only if there was nothing, or it has a thread and no worker waits for the client of such a task; all workers have exited if and only if none waits |
| Draining.RunningPoolServesExactly | bkk_uds_server/bkk_thread_pool.cpp:27-71 | a running pool with a thread that can do nothing more has served everything if and only if no worker waits for its client, and leaves a task queued only if all workers wait |
| Draining.ServesByItselfExactly | bkk_uds_server/bkk_thread_pool.cpp:27-71 | a running pool can serve all that was submitted without a further receive if and only if nothing is queued and no worker waits for its client |
| Draining.ExitsByItselfExactly | bkk_uds_server/bkk_thread_pool.cpp:40-171 | a stopped pool can bring all joins to return without a further receive if and only if all workers have exited, or nothing is queued and no worker waits |
| Draining.SilentClientsHoldThePool | bkk_uds_server/bkk_thread_pool.cpp:64-71 | for every number of threads, so many silent clients and one more client leave the pool stuck, running and stopped, with nobody served |
| Draining.JoinedMeansDrained | bkk_uds_server/bkk_thread_pool.cpp:160-171 | when all workers have exited, every task submitted before `stop` was closed exactly once |
| Draining.RestMeansServed | bkk_uds_server/bkk_thread_pool.cpp:27-57 | a running pool in which no client is silent rests only with an empty queue, all tasks closed and all workers waiting for a notification |
| Draining.StoppedRestIsExit | bkk_uds_server/bkk_thread_pool.cpp:160-171 | a stopped pool in which no client is silent rests only with exited workers and finished refreshes |
| Draining.DrainsExactlyWithAThread | bkk_uds_server/bkk_thread_pool.cpp:16-71 | if no client stays silent, shutdown serves what was submitted before it if and only if the pool has a thread; regardless of the clients, no pool always does |
| Draining.RunningPoolServesAll | bkk_uds_server/bkk_thread_pool.cpp:27-57 | if every client sends or hangs up, a running pool with a thread rests after a bounded number of steps with every submitted task closed exactly once |
| Draining.ShutdownReachesExit | bkk_uds_server/bkk_thread_pool.cpp:160-171 | if every client sends or hangs up, a stopped pool lets all joins return after a bounded number of steps |
| Tickets.ReceivedAndLookedUpOnce | bkk_uds_server/bkk_thread_pool.cpp:64-73 | in every run a task is received at most once and looked up at most once, and neither if its request came short |
| Tickets.RepliesComeFromLookups | bkk_uds_server/bkk_thread_pool.cpp:73-116 | in every run a reply comes from the one lookup of its task: a cached reply from its hit at the reported reading, a fetched one from a miss |
| Replies.RespondShows | bkk_uds_server/bkk_thread_pool.cpp:105-114 | a reply shows the first sixteen arrivals in order and zeroes the other slots |
| Replies.RefreshStepKeeps | bkk_uds_server/bkk_thread_pool.cpp:135-157 | every step of a refresh, in the foreground or detached, keeps fetches genuine, puts fetched and the cache in agreement |
| Replies.OkRepliesAreJustified | bkk_uds_server/bkk_thread_pool.cpp:73-116 | in every run an Ok reply shows one genuine fetch for its stop, its own or one inside the window of the reported state at the clock reading of the one lookup of its task |
| Replies.RepliesAreShaped | bkk_uds_server/bkk_thread_pool.cpp:73-116 | in every run a reply is Ok exactly with 1 to 16 arrivals and an error exactly with none |
| Replies.RequestsAreServedUnchanged | bkk_uds_server/bkk_thread_pool.cpp:59-121 | in every run each lookup, background refresh and reply is for the one request received under its ticket |
| Linearizability.LookupsAreLinearizable | bkk_uds_server/bkk_cache.cpp:15-63 | in every run each lookup answers as the plain map of the puts before it, in an order that respects the lookups |
| Linearizability.RepliesAreLinearizable | bkk_uds_server/bkk_cache.cpp:15-63 | with sound windows every reply shows what the plain map of the puts before its one lookup had at that reading, or was fetched because the last entry put had left both windows or there was none |
| Linearizability.RepliesFollowTheLastPut | bkk_uds_server/bkk_cache.cpp:27-49 | with sound windows a cached reply shows the entry put last before its lookup, inside the window of the reported state; a reply is fetched only if the last entry put had left both windows, or there was none |
| Linearizability.CacheRefinesPlainMap | bkk_uds_server/bkk_cache.cpp:15-63 | at every moment of every run a lookup would answer as the plain map |
| Linearizability.SweepIsExact | bkk_uds_server/bkk_cache.cpp:15-24 | right after any sweep of any run the cached stops are exactly the young ones, whatever was put since the insert |
| Linearizability.EntriesOnlyAge | bkk_uds_server/bkk_cache.cpp:38-48 | along any stretch without a put for a stop its lookups go from fresh to stale to miss and never back |
| Linearizability.FailuresLeaveNoTrace | bkk_uds_server/bkk_thread_pool.cpp:142-148 | in any run in which every fetch of one stop fails, from a state in which none is under way to its insert, nothing is fetched or put for it and its lookups only age, while other stops are refreshed freely |
| Linearizability.RefreshesAreCounted | bkk_uds_server/bkk_thread_pool.cpp:83-157 | in every run the background refreshes are one for the request of each stale hit, in order, and puts match successful fetches one to one by stop, arrivals and clock reading, but for those about to be put |
| Refinement.ServerRefinesPlainServer | bkk_uds_server/bkk_thread_pool.cpp:59-157 | with sound windows the server has exactly the runs of a server that never sweeps, equal in everything but the stored cache |
| Limits.ServerRefinesExactly | bkk_uds_server/bkk_thread_pool.cpp:59-157 | all runs are runs of the server that never sweeps if and only if there is no thread or the windows are sound |
| Stamps.StampsGrowExactly | bkk_uds_server/bkk_thread_pool.cpp:83-157 | over all runs the clock readings of a stop never go backwards, and no cached entry is older than one put before, if and only if there is no thread, or one thread and no stale hit is possible |
| Stamps.TwoWorkersRegress | bkk_uds_server/bkk_thread_pool.cpp:149-155 | with two workers some run replaces a cached entry by an older one |
| Stamps.StaleHitsRegress | bkk_uds_server/bkk_thread_pool.cpp:83-103 | with one worker and possible stale hits some run does, through two detached refreshes |
| CacheGrowth.NeverExceedsExactly | bkk_uds_server/bkk_cache.cpp:15-63 | no run caches more than a given number of stops if and only if there is no thread, or the staleness window is not positive and there are no more threads than that |
| CacheGrowth.BoundedExactly | bkk_uds_server/bkk_cache.cpp:15-63 | the number of cached stops is bounded over all runs if and only if there is no thread or the staleness window is not positive |
| CacheGrowth.CacheReaches | bkk_uds_server/bkk_cache.cpp:15-63 | otherwise every number of stops is cached in some reachable state |
| CacheGrowth.TransientCacheIsSmall | bkk_uds_server/bkk_cache.cpp:15-63 | without a positive staleness window no more stops are cached than there are workers |
| Sequential.RefreshAloneAmountsTo | bkk_uds_server/bkk_thread_pool.cpp:135-157 | without interruption a refresh fails with the fetch status and changes nothing, or puts the fetched list under its clock reading, sweeps and returns the list |
| Sequential.UninterruptedRefreshIsRun | bkk_uds_server/bkk_thread_pool.cpp:135-157 | the straight-line refresh of a worker is one run of the step system |
| Sequential.HandleAloneAmountsTo | bkk_uds_server/bkk_thread_pool.cpp:73-116 | reply, detached refresh, cache and puts of an uninterrupted handler for a fresh hit, a stale hit, a miss and a failed miss |
| Sequential.UninterruptedHandlerIsRun | bkk_uds_server/bkk_thread_pool.cpp:59-121 | the straight-line handler of a client is one run of the step system that appends this reply, or drops a short request, closes the descriptor once and leaves this cache and detached refresh |
| ThreadPoolClass.ThreadPool.Submit | bkk_uds_server/bkk_thread_pool.cpp:27-37 | appends the descriptor, and is the run of a push and a notification that wakes a blocked worker if there is one |
| ThreadPoolClass.ThreadPool.TakeTask | bkk_uds_server/bkk_thread_pool.cpp:44-50 | is the step in which a worker takes the oldest task, leaves when stopped and empty, or blocks |
| ThreadPoolClass.ThreadPool.BeginShutdown | bkk_uds_server/bkk_thread_pool.cpp:160-165 | is the run of setting `stop` and notifying all, after which no worker is blocked |
| ThreadPoolClass.ThreadPool.FillResponse | bkk_uds_server/bkk_thread_pool.cpp:105-114 | the copying loop produces the specified reply |
| ThreadPoolClass.ThreadPool.FreshFetchAndUpdateCache | bkk_uds_server/bkk_thread_pool.cpp:135-157 | on failure neither output nor cache changes; on success both hold the fetched list, as the composition of the modelled steps says |
| ThreadPoolClass.ThreadPool.Answer | bkk_uds_server/bkk_thread_pool.cpp:73-116 | lookup, refresh and reply of one request do to reply, cache and detached refresh what the composed steps do |
| ThreadPoolClass.ThreadPool.HandleClient | bkk_uds_server/bkk_thread_pool.cpp:59-121 | is a run of the step system with this reply, final cache, closed descriptor and detached refresh, spelled out for a short receive, a fresh hit, a stale hit, a miss and a failed miss |
| ArgParser.AcceptsExactly | bkk_uds_server/bkk_arg_parser.cpp:11-29 | accepted are exactly white space, an optional plus and digits that spell 1 to INT_MAX, with the value spelled |
| ArgParser.SpellsExactly | bkk_uds_server/bkk_arg_parser.cpp:11-29 | the spelling of a number character by character |
| ArgParser.AppendDigit | bkk_uds_server/bkk_arg_parser.cpp:11-29 | the value of digits is decimal |
| ArgParser.ParseInvertsPrint | bkk_uds_server/bkk_arg_parser.cpp:11-29 | a printed number parses back exactly from 1 to INT_MAX |
| ArgParser.ParseArguments | bkk_uds_server/bkk_arg_parser.cpp:32-75 | the option loop computes the fold; the configuration is written only on success |
| ArgParser.OptionsClassify | bkk_uds_server/bkk_arg_parser.cpp:32-75 | accepted exactly when all options are valid and the last staleness is at least the last freshness; help exactly when it comes first; the result is in range |
| ArgParser.OptionsSetTheirFields | bkk_uds_server/bkk_arg_parser.cpp:32-75 | each accepted setting is the number of the last option with its letter, or 10, 20 and 100 without one |
| Deployment.AcceptedSettingsHideTheSweep | bkk_uds_server/main.cpp:66-78 | every accepted command line, and the default configuration, makes the sweep invisible |
| Deployment.RefusedSettingsShowTheSweep | bkk_uds_server/bkk_arg_parser.cpp:65-68 | among positive windows the sweep is invisible exactly when the cross-check passes |
| Deployment.ConfiguredServerIsLinearizable | bkk_uds_server/main.cpp:66-104 | a server started from an accepted command line answers all lookups of every run as the plain map |
| Deployment.MaxCacheSizeIsNotEnforced | bkk_uds_server/main.cpp:66-104 | under every accepted command line the configured limit holds over all runs if and only if the pool has no thread |
| Deployment.ConfiguredStampsGrowExactly | bkk_uds_server/main.cpp:66-104 | under an accepted command line clock readings of a stop stay in order exactly with no thread, or one thread and equal windows |
| StopUtils.FindStopById | bkk_uds/bkk_stop_utils.c:83-97 | finds the first stop with the id, and fails only if there is none or the id is null |
| StopUtils.FindStopByName | bkk_uds/bkk_stop_utils.c:99-113 | finds the first stop with the name, and fails only if there is none |
| StopUtils.FindStopsByNameSubstring | bkk_uds/bkk_stop_utils.c:128-176 | the second pass fills exactly the array that the first pass sized, with the positions of all names that contain the text anywhere; none is found only if there is none |
| StopUtils.MatchesAreExact | bkk_uds/bkk_stop_utils.c:142-175 | the positions are increasing, are exactly the matching ones, and each is accepted by the search by index |
| StopUtils.ContainsExactly | bkk_uds/bkk_stop_utils.c:142-171 | a name matches exactly when it is some text, the searched text and some text |
| StopUtils.IdRoundTrip | bkk_uds/bkk_stop_utils.c:83-97 | the search for the id of any stop of the table finds that stop, if and only if no two different stops share an id |
| StopUtils.ReadApiKeyFromFile | bkk_uds/bkk_stop_utils.c:10-75 | on success the key is the trimmed file with a terminator |
| StopUtils.Scan | bkk_uds/bkk_stop_utils.c:50-62 | the two scans stay inside the buffer and delimit the trimmed text |
| StopUtils.TrimIsMaximal | bkk_uds/bkk_stop_utils.c:50-62 | the key is a slice between two runs of white space and touches neither |
| StopUtils.TrimIsUnique | bkk_uds/bkk_stop_utils.c:50-62 | no other slice is |
| StopUtils.KeyIsFoundBetweenSpaces | bkk_uds/bkk_stop_utils.c:50-62 | a key between blanks, tabs, line ends and form feeds is what is read, with a final line feed in particular |
| StopUtils.TrimIsIdempotent | bkk_uds/bkk_stop_utils.c:50-62 | trimming twice changes nothing, and the key is empty exactly for an all-blank file |

## Left out

- Sockets, epoll, accept loop and server setup: a submission is an outside event with any descriptor; a failed send still closes the descriptor and is not told apart from a successful one.
- libcurl, HTTP and JSON text: upstream is an oracle that yields a transport result and a parsed tree; cJSON is not part of this model beyond first-match lookup and the `int` array size.
- Time zones and HH:MM formatting: the time text is an arbitrary function of the time stamp; `localtime` and its shared buffer are not modelled.
- Floating point effects: the minute computation is exact; casts of values outside `long long` or `int` are not modelled, and `MinutesFitInt` gives the range of the second one.
- Logging, latency measurement and the enum printers other than vehicle types: they carry no state.
- Bound by `max_cache_size`: the source stores the number and never reads it.
- Object lifetimes: the cache is taken to outlive all threads, and the joins wait only for workers; a detached refresh may outlast the pool.
- Thread creation failure: starting a worker or a detached refresh always succeeds.
- Request fields without a terminator: stop id and key are C strings, as the client builds them.
- `getopt`: options arrive already split, with anything it rejects as one case.
- Null output pointers of the stop searches: outputs are always wanted; a null search text is modelled.
- File access in the key reader: opening, sizing and reading either all succeed or the file is absent.
- The contents of the stop table: the searches are proved for every table.
