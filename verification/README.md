# Torus proxy: a model and its properties

Torus is a reverse proxy that replaces its whole configuration while it serves. A configuration
file becomes an immutable *runtime generation* (services, routes, health probers); a reload
installs the next generation, and the replaced one is stopped once its requests and probers have
finished. This project models that machinery and the components around it, and proves what they
promise: over every interleaving for the concurrent part, over every input for the rest.

`dafny verify dfyconfig.toml` checks everything.

## The lifecycle machine

`Lifecycle.dfy` models `internal/proxy/server.go`, `internal/runtime/runtime.go`,
`internal/health/checker.go`, `internal/reload/manager.go` and the request metrics as one
transition system. Every goroutine (request handler, reload, `Shutdown` caller, `Start`, prober)
is a thread with a program counter. The shared state is the server's fields, `runtimeMu` as Go's
`RWMutex` (an announced writer keeps new readers out), two wait groups per generation, the
in-flight gauge and the request counter. A step is one atomic action: a lock, an unlock, one
store, one wait-group operation. Waiting for a wait group, for `http.Server.Shutdown` or for
`shutdownDone` is a step that is disabled until it may happen. There is no bound on the number of
threads, generations, probers or steps.

Counting is done with *meters*: each thread weighs on a meter (requests in flight on generation
g, workers of g, the right to probe one backend, the duty to stop g, shutdown ownership, work
left), and a total over all threads is what the program's counters must equal. Conservation laws
are equations between totals, so most of the invariant is linear.

Most results are about all interleavings. `LifecycleAlone.dfy` adds the sequential meaning of the
operations: from any state, what a request, a reload, a shutdown, a start or a prober does when no
other thread acts in between.

Three assumptions are explicit in the model:

- *Ordered callers.* `Start` stores the Running state without the lock
  (`internal/proxy/server.go:200-201`), so a `Shutdown` that falls between the call of `Start` and
  that store can be overwritten. The lifecycle theorems are about `IsOrderedRun`: no `Shutdown`
  call inside that window and no `Start` after a `Shutdown` call. `StartRace.dfy` drops the
  assumption, exhibits the lost shutdown, and shows for all runs exactly when the state moves
  backward.
- *Drained HTTP server.* No handler starts before `Start` has a listener. When
  `http.Server.Shutdown` returns nil no handler is on its way in and none starts later. Handlers already past the lock may still run (upgraded connections), so
  `Runtime.Stop` still has to wait for them.
- *Failed Serve.* After `Serve` fails, open connections may still start handlers, so no claim is
  made that the active generation stays without requests on that path. That its probers are gone
  once `Stop` has returned holds on every path (`ProbersGoneForever`).

## Where the code and its documentation disagree

- The routing guide calls `/` a catch-all (`docs/configuration/routing.md:106-114`). The code
  matches it only against `/` and paths that begin with `//`; `RootRoute` states this exactly.
- `Validate` trims service names and the builder does not, so an accepted configuration can hold a
  route without a service. `ServedUnlessOrphan` states exactly which configurations are affected.

- `Shutdown` is documented to drain and retire the active runtime (`internal/proxy/server.go:245-251`).
  A call that finds the server already Stopped by a failed listen or serve returns nil at once, while
  `Start` may still be stopping the runtime; `StoppedUnlessCleaningUp` states exactly when.
- The limiter floors the tokens a waiting time is worth and forgets the rest
  (`node/src/security/rateLimiter.ts:26-30`), so with a fractional rate it can admit less than that
  rate; `MatchesExactly` states which rates are affected.

## Model

| member | source | states |
|---|---|---|
| `LifecyclePreservation.InitialInv` | internal/proxy/server.go:46-57 | a new server holding generation 1 with its probers satisfies the invariant |
| `LifecyclePreservation.NextKeeps` | internal/proxy/server.go:61-400 | every atomic action of every kind of goroutine, and every arrival in caller order, keeps the whole invariant: exact wait groups and metrics, one place per generation, lock discipline, phases, drained retired generations |
| `LifecyclePreservation.RunInv` | internal/proxy/server.go:30-43 | the invariant holds in every state of every ordered interleaving |
| `LifecycleSafety.DrainedForever` | internal/proxy/server.go:369-392 | once Stop has returned for a generation handlers cannot reach, in every later state it has no request, no worker, no live handler and no live prober, and no request acquires it again |
| `LifecycleSafety.ProbersGoneForever` | internal/runtime/runtime.go:55-70 | once Stop has returned for a generation, for whatever reason it ran, workerWG is zero and no prober of it lives or restarts in any later state |
| `LifecycleSafety.ReloadReturned` | internal/reload/manager.go:50-71 | a reload that has returned, accepted or rejected, has drained for good the runtime it had to stop |
| `LifecycleSafety.CountsExact` | internal/runtime/runtime.go:47-61 | at every moment both wait groups equal the goroutines registered in them and are not negative, and gauge and counter equal the handlers they should count |
| `LifecycleSafety.ObservesAsConfigured` | internal/runtime/builder.go:36-36 | whether a runtime observes is what its configuration said, for its whole life |
| `LifecycleSafety.RetiredRequestsCounted` | internal/proxy/server.go:75-103 | when Stop has returned, each request of the generation is counted exactly once if it observes and never otherwise, and none is left in the gauge |
| `LifecycleSafety.OwnershipConserved` | internal/proxy/server.go:379-392 | every generation ever numbered is at every moment in exactly one place: with the one thread that builds, must install or must stop it, given up by the one build that failed, with the active pointer, or retired |
| `LifecycleSafety.OnlyPlace` | internal/reload/manager.go:60-68 | no generation is in two places, and one never numbered is in none |
| `LifecycleSafety.StoppedOnce` | internal/runtime/runtime.go:63-70 | two Stop calls on one generation, at whatever moments of an interleaving, are the same call |
| `LifecycleSafety.PhaseForward` | internal/proxy/server.go:255-283 | the server state only moves forward through Starting, Running, ShuttingDown, Stopped |
| `LifecycleSafety.HardBoundary` | internal/proxy/server.go:374-379 | after leaving Running the active pointer never changes, no further reload is accepted, and the server is not ready whenever the write lock is free |
| `LifecycleReload.AcceptedIffRunning` | internal/proxy/server.go:374-379 | every decided reload of every run looked at the state once, holding the write lock, and was accepted if and only if the server was Running at that moment; a refused one stops the generation it had built |
| `LifecycleReload.AcceptedInstalls` | internal/proxy/server.go:379-392 | an accepted reload stored its generation while the server was Running, and the generation it stops is the one that was active just before |
| `LifecycleReload.RunningNeverRefuses` | internal/proxy/server.go:365-377 | a reload that gets the write lock while the server is Running stays accepted in every later state, whatever other threads do |
| `LifecycleSafety.ReadyExactly` | internal/proxy/server.go:200-224 | whenever no thread is inside the write lock, ready is true if and only if the server is Running or Start is between its two stores |
| `LifecycleSafety.ShutdownAgreement` | internal/proxy/server.go:252-304 | any two Shutdown calls that have returned got the same result; success means Stopped, failure means ShuttingDown for good |
| `LifecycleSafety.OneShutdownOwner` | internal/proxy/server.go:261-273 | shutdownDone is closed at most once, and while a caller waits on the open channel exactly one live owner still has to close it |
| `LifecycleSafety.ShutdownDrains` | internal/proxy/server.go:306-328 | after the nil of a call that owned the shutdown, waited for it or came after it, on a started server or not, the runtime active when it began is drained for good and stays the active one |
| `LifecycleReturn.StoppedUnlessCleaningUp` | internal/proxy/server.go:255-259 | whenever any Shutdown call has returned nil, the active runtime is stopped if and only if Start is not still inside its own cleanup after a failed listen or serve |
| `LifecycleReturn.EarlySuccess` | internal/proxy/server.go:177-188 | such a cleanup can be outrun: a nine-event ordered run in which Shutdown has returned nil with the runtime neither cancelled nor stopped and its prober alive |
| `LifecycleReturn.FailureCause` | internal/proxy/server.go:344-352 | no Shutdown call returns a failure in any run unless a forced attempt has failed before |
| `LifecycleReturn.ForcedAfterDeadline` | internal/proxy/server.go:322-342 | a forced attempt is made only after the graceful deadline of the same call has expired |
| `LifecycleProbing.LoopsConserved` | internal/health/checker.go:31-62 | over any stretch of a run the right to probe a backend of a runtime that is not cancelled is neither lost nor duplicated by any event, except a panic inside the recovery itself |
| `LifecycleProbing.EveryBackendProbed` | internal/runtime/builder.go:42-80 | each backend of a complete runtime has, at every moment until the runtime is cancelled, exactly one prober that runs its loop or is about to run it again, whatever panics happen, unless a recovery panics |
| `LifecycleProbing.FirstBackendsProbed` | internal/health/checker.go:50-55 | the same for the runtime the server began with |
| `LifecycleSafety.ProberHandover` | internal/health/checker.go:31-62 | at most one goroutine per backend may run or start its probe loop; a live prober keeps workerWG at least one, and at least two between AddWorker of its replacement and its own DoneWorker |
| `LifecycleSafety.NoRestartAfterCancel` | internal/health/checker.go:50-59 | cancellation lasts, and after it no prober newly decides to restart |
| `LifecycleProgress.WaitersHoldNoLock` | internal/proxy/server.go:247-251 | no thread that waits for a wait group, for http.Server.Shutdown or for shutdownDone holds runtimeMu in either mode |
| `LifecycleProgress.NotStuck` | internal/proxy/server.go:252-392 | in every reachable state with an unfinished thread some lock, release, drain or worker action can happen; no failure, no expired deadline and no panic is needed for it |
| `LifecycleProgress.ProgressShrinks` | internal/runtime/runtime.go:63-70 | every action that is no arrival, panic or probe tick decreases a natural-number measure |
| `LifecycleProgress.DrainsEnd` | internal/proxy/server.go:365-400 | without arrivals, panics and ticks the number of actions is bounded by the measure, and when none is left but failures and expired deadlines, every request, reload and shutdown has returned and every cancelled prober is gone, also while Start keeps serving |
| `LifecycleProgress.EveryDrainCanFinish` | internal/proxy/server.go:320-357 | from every reachable state the threads present can all be brought to rest without any failure or expired deadline |
| `LifecycleDrain.DrainBounded` | internal/proxy/server.go:390-392 | while requests, reloads, panics and all other threads go on, the handlers and probers of a generation that Stop drains for a reload, a shutdown or a failed listen act only as often as the work they had left says, plus two for each tick of a cancelled probe loop |
| `LifecycleDrain.DrainNeverBlocked` | internal/runtime/runtime.go:63-70 | at every moment each handler and prober such a Stop waits for can act at once, without the lock, and when they have no work left Stop can go on |
| `LifecycleDrain.DrainNeedsNoOther` | internal/runtime/runtime.go:47-70 | from every reachable state such a drain can be finished by these threads and Stop alone |
| `LifecycleAlone.RequestServed` | internal/proxy/server.go:61-103 | a listening server takes a request, which without interference is answered by the active runtime, counted once exactly if that runtime observes, and leaves no other trace |
| `LifecycleAlone.HotReload` | internal/reload/manager.go:50-58 | a reload of a Running server without interference installs the next generation with one registered prober per backend and the configured observability, and goes on to stop the one it replaced |
| `LifecycleAlone.ReloadRefused` | internal/reload/manager.go:60-68 | on a server that is not Running it changes nothing and goes on to stop the runtime it had built |
| `LifecycleAlone.BuildFails` | internal/runtime/builder.go:48-57 | a build that fails cancels its context |
| `LifecycleAlone.StopAlone` | internal/runtime/runtime.go:63-70 | Stop of a runtime without requests and workers cancels it and returns to its caller with the result that caller reports |
| `LifecycleAlone.ShutdownAlone` | internal/proxy/server.go:252-328 | a Shutdown without interference withdraws readiness, closes the HTTP server, stops the active runtime, publishes success, closes the channel once and leaves the server Stopped |
| `LifecycleAlone.ShutdownLate` | internal/proxy/server.go:255-273 | a call on a server that is shutting down waits, on a stopped one it returns the stored result; neither changes anything |
| `LifecycleAlone.ShutdownWoken` | internal/proxy/server.go:267-273 | a caller that waited returns the owner's result once the channel is closed |
| `LifecycleAlone.OwnerStops` | internal/proxy/server.go:306-360 | when no handler is on its way in the owner goes on to stop the runtime, before its graceful deadline or after it |
| `LifecycleAlone.OwnerFails` | internal/proxy/server.go:331-352 | when deadline and forced attempt both fail the runtime is not stopped and a failure is published |
| `LifecycleAlone.ShutdownCompletes` | internal/proxy/server.go:287-304 | the owner's result is stored, only success makes the server Stopped, and the channel is closed once |
| `LifecycleAlone.ServerStarts` | internal/proxy/server.go:160-201 | Start brings a fresh server to listening, ready and Running |
| `LifecycleAlone.ListenFails` | internal/proxy/server.go:177-188 | a failed listen makes the server Stopped and not ready and goes on to stop the runtime |
| `LifecycleAlone.ServeFails` | internal/proxy/server.go:214-236 | a failed serve of a Running server does the same under the lock |
| `LifecycleAlone.ServeFailsLate` | internal/proxy/server.go:236-238 | a failed serve during a shutdown changes nothing |
| `LifecycleAlone.ProbeAlone` | internal/health/checker.go:67-84 | a tick probes and comes back to the loop; a panic in the loop or in the probe is caught |
| `LifecycleAlone.RestartAlone` | internal/health/checker.go:50-55 | a crashed prober of a runtime that is not cancelled is replaced by a new one of the same backend, and workerWG ends where it was |
| `LifecycleAlone.ProberEnds` | internal/health/checker.go:43-62 | a prober of a cancelled runtime ends, from its loop or its recovery, and so does one whose recovery panics; each gives up its slot in workerWG |
| `LifecycleRefinement.RunRefines` | internal/proxy/server.go:70-85 | the concurrent machine refines a sequential server: each request is answered once, by the generation installed at its acquire action, that choice never changes, and only complete generations that were never installed before are installed |
| `LifecycleRefinement.NeverActiveAgain` | internal/proxy/server.go:379-392 | even when reloads overlap, a generation that has been replaced is never active again |
| `LifecycleRefinement.AcquiresMonotone` | internal/runtime/builder.go:34-36 | when reloads come one at a time, the generations of successive acquires never decrease |
| `StartRace.BackwardExactly` | internal/proxy/server.go:200-201 | in every interleaving, ordered or not, the server state moves backward exactly when Start stores Running after a Shutdown has begun |
| `StartRace.LostShutdown` | cmd/torus/main.go:49-56 | such an interleaving exists: ShuttingDown is overwritten by Running |
| `RoundRobin.Balancer.Next` | internal/loadbalancer/round_robin.go:17-30 | the loop returns the backend and leaves the counter that the scan over the health flags prescribes, and nil when the scan finds none |
| `RoundRobin.WordIsWide` | internal/loadbalancer/round_robin.go:10-10 | the counter wraps at two to the 64 |
| `RoundRobin.FirstInside` | internal/loadbalancer/round_robin.go:22-28 | a scan stops at the first healthy ticket after the counter |
| `RoundRobin.CyclicUnlessWrap` | internal/loadbalancer/round_robin.go:17-30 | a call returns the next healthy backend in cyclic order, whatever the health of the pool, exactly when the counter cannot wrap during it or the pool size divides two to the 64 |
| `RoundRobin.NilOnlyIfNoneHealthy` | internal/loadbalancer/round_robin.go:29-29 | unless a harmful wrap falls into the next n tickets the result is nil exactly when no backend is healthy |
| `RoundRobin.EachHealthyOnce` | internal/loadbalancer/round_robin.go:17-30 | with h healthy backends and no harmful wrap, any h successive calls return each healthy backend exactly once and no other |
| `RoundRobin.FairUnlessWrap` | internal/loadbalancer/round_robin.go:23-28 | both hold for every health of the pool exactly when the next n tickets do not wrap or n divides two to the 64 |
| `RoundRobin.WrapSkipsLastOfThree` | internal/loadbalancer/round_robin.go:23-29 | they fail at a wrap: with three backends, only the last healthy, a call two before the wrap returns nil |
| `RoundRobinConcurrent.TicketsUnique` | internal/loadbalancer/round_robin.go:23-23 | under every interleaving and any health changes each counter value is drawn by exactly one call |
| `RoundRobinConcurrent.HandedOutHealthy` | internal/loadbalancer/round_robin.go:24-27 | in every state of every interleaving, a caller that got a backend had checked it at an earlier event and found it healthy |
| `RoundRobinConcurrent.NothingAfterAllFailed` | internal/loadbalancer/round_robin.go:22-29 | a caller that got nil had drawn as many tickets as there are backends and found the backend of each unhealthy at its own check |
| `RoundRobinConcurrent.AloneScans` | internal/loadbalancer/round_robin.go:17-30 | a concurrent call that meets nobody gets the backend and leaves the counter that the sequential scan prescribes |
| `RoundRobinConcurrent.EvenSpread` | internal/loadbalancer/round_robin.go:22-28 | while all backends are healthy the calls that drew a ticket differ by at most one between any two backends, at every moment |
| `Routing.Router.AddRoute` | internal/routing/router.go:18-20 | the key is bound, every other binding is unchanged |
| `Routing.Router.Route` | internal/routing/router.go:23-42 | for any visiting order the result is the longest non-empty matching key with its service, or nothing when no such key matches |
| `Routing.MatchesBySegments` | internal/routing/router.go:28-32 | for all strings the byte test equals "the segments of the key are a prefix of the segments of the path" |
| `Routing.MatchesChain` | internal/routing/router.go:31-37 | of two keys matching one path the shorter matches the longer, and equal lengths mean equal keys |
| `Routing.DeepestUnique` | internal/routing/router.go:33-36 | the deepest match is unique, so the map order cannot be seen, and it extends the segments of every other match |
| `Routing.RootRoute` | docs/configuration/routing.md:106-114 | the key "/" matches exactly "/" and paths that begin with two slashes |
| `Routing.RootIsNoCatchAll` | docs/configuration/routing.md:118-123 | the documented example /about is not matched by "/" |
| `TokenBucket.Key.Eval` | node/src/security/rateLimiter.ts:10-42 | the script with its expiry answers and stores what the bucket function says of the visible hash |
| `TokenBucket.ExpiryUnobservable` | node/src/security/rateLimiter.ts:15-41 | for a clock that does not go back, any capacity and any positive rate, the expiring key gives the same answers and stores the same contents as one that never expires |
| `TokenBucket.ExpiresAfter` | node/src/security/rateLimiter.ts:38-38 | the hash is gone exactly when twice the least whole number of seconds that fills the bucket has passed since the last admission |
| `TokenBucket.BackwardCall` | node/src/security/rateLimiter.ts:25-42 | a call whose clock is not ahead of the last refill adds nothing, takes nothing but the token it admits for, and leaves the refill time |
| `TokenBucket.BackwardStandsStill` | node/src/security/rateLimiter.ts:25-30 | for every capacity, positive rate and sequence of times, a clock that goes back is answered as one that stands still instead |
| `TokenBucket.RateBoundAnyClock` | node/src/security/rateLimiter.ts:24-42 | for any clock the calls from any point on admit at most capacity plus rate times the advance of the latest time |
| `TokenBucket.DropsUnobservable` | node/src/security/rateLimiter.ts:37-38 | no deletion of a hash that is (capacity + 1) / rate seconds old is observable, whenever the server makes it |
| `TokenBucket.RateBound` | node/src/security/rateLimiter.ts:24-42 | any contiguous block of calls from time a to b admits at most capacity + rate * (b - a) |
| `TokenBucket.ScriptLoses` | node/src/security/rateLimiter.ts:25-30 | an admission costs exactly one token of level when no whole token is added, a refill loses less than one token, and a rejection costs nothing else |
| `TokenBucket.MatchesIdeal` | node/src/security/rateLimiter.ts:20-42 | with a whole rate every answer equals that of a bucket refilled continuously up to capacity, although rejections write nothing |
| `TokenBucket.MatchesExactly` | node/src/security/rateLimiter.ts:24-30 | for a whole capacity and any positive real rate, every run is answered as by that bucket if and only if the rate is whole, the capacity is at most one, or the rate is at least the capacity |
| `TokenBucket.FractionLostAtFifthCall` | node/src/security/rateLimiter.ts:26-30 | capacity 2, rate 1.5, calls at 0, 0, 1, 2, 2: the script rejects the fifth, that bucket admits it |
| `Watcher.Loop.Turn` | internal/configwatcher/watcher.go:58-109 | one turn keeps the timer invariant (a live channel is the newest timer's and exists exactly when a change is pending, every older timer is stopped) and does what the timer-free log says: a written, created or renamed configuration file is a change, any other path and mere removal or mode change are not; cancellation stops the timer |
| `Watcher.Loop.Start` | internal/configwatcher/watcher.go:57-111 | for every schedule of inputs the loop with its timers produces the timer-free log |
| `Watcher.LogPaced` | internal/configwatcher/watcher.go:83-98 | every reload directly follows the last handled change, at least 250 ms later |
| `Watcher.ReloadsNeverOutnumber` | internal/configwatcher/watcher.go:79-98 | reloads, plus one if a change is pending, never outnumber relevant events |
| `Watcher.NothingForgotten` | internal/configwatcher/watcher.go:83-98 | after a relevant event and any continuation without ends and relevant events, the first tick at least 250 ms later adds exactly one reload, and nothing else adds anything |
| `Watcher.NoSpuriousReload` | internal/configwatcher/watcher.go:59-98 | every reload of every run was made at a tick, before the loop returned, for the last relevant event before it and at least 250 ms after it, no tick in between being late enough |
| `Watcher.LogEnded` | internal/configwatcher/watcher.go:59-68 | nothing is logged after the loop has returned |
| `Configuration.SpaceIsWhiteSpace` | internal/config/config.go:75-75 | what is trimmed are the 25 characters with the White_Space property of Unicode |
| `Configuration.TrimSpaceIs` | internal/config/config.go:108-108 | trimming leaves exactly the stretch from the first to the last character that is no whitespace |
| `Configuration.UpstreamFault` | internal/config/config.go:128-193 | no fault exactly for a non-blank URL that parses, with scheme http or https, a host and a port from 1 to 65535; a fault is the first of these that fails |
| `Configuration.ValidateUpstreams` | internal/config/config.go:127-194 | accepts exactly lists of usable upstreams and names the first faulty one with its first fault |
| `Configuration.ValidateServices` | internal/config/config.go:105-195 | accepts only services that are in order with distinct trimmed names, and collects exactly these names |
| `Configuration.ValidateRoutes` | internal/config/config.go:202-227 | accepts only routes with distinct paths that name existing services |
| `Configuration.Validate` | internal/config/config.go:73-249 | accepts exactly the configurations that meet all field, uniqueness, reference and TLS conditions; an error names the first condition that fails in the order of the checks |
| `Configuration.FirstErrorUnique` | internal/config/config.go:73-249 | no configuration has two first failing conditions, so the error is determined |
| `Configuration.EnabledValue` | internal/config/config.go:57-62 | observability is on unless the configuration says false |
| `Builder.BuildServices` | internal/runtime/builder.go:38-86 | builds every service with its whole pool and one prober per backend, or fails at the first unusable upstream with one prober for each earlier one |
| `Builder.AddRoutes` | internal/runtime/builder.go:88-92 | the router holds every route bound to the service looked up by its name |
| `Builder.Factory.BuildRuntime` | internal/runtime/builder.go:17-99 | generation numbers are consecutive, skipped only by failed builds after TLS loaded; a built runtime holds exactly the configured routes |
| `Builder.RouteResolves` | internal/runtime/builder.go:88-92 | in an accepted configuration a route is bound to the service carrying its name, with a non-empty pool, and to none exactly when no service carries that name as written |
| `Builder.NotFoundExactly` | internal/proxy/server.go:105-108 | without orphans a request gets the missing-service 404 exactly when no configured route matches, else it goes to the pool named by the deepest match |
| `Builder.ServedUnlessOrphan` | internal/config/config.go:214-226 | an accepted configuration serves all its routes exactly when no route is an orphan |
| `Builder.TrimmedHasNoOrphan` | internal/config/config.go:108-108 | an accepted configuration whose names carry no surrounding whitespace has no orphan |
| `Builder.WhitespaceLosesService` | internal/config/config.go:107-118 | an accepted configuration with an orphan exists |
| `Statistics.PercentileMonotone` | docs/benchmarking/analysis/metrics.py:56-78 | for non-empty data and 0 <= p <= q <= 100, minimum <= percentile(p) <= percentile(q) <= maximum |
| `Statistics.PercentileIs` | docs/benchmarking/analysis/metrics.py:63-78 | for any sorted arrangement of at least two values the percentile is the value at that percentage of the way through, by linear interpolation between neighbours |
| `Statistics.PercentileOnly` | docs/benchmarking/analysis/metrics.py:71-78 | there is only one such value |
| `Statistics.PercentileMedian` | docs/benchmarking/analysis/metrics.py:18-20 | percentile(50) is the median, for every list |
| `Statistics.PercentilePermutes` | docs/benchmarking/analysis/metrics.py:63-78 | percentiles do not depend on the order of the data |
| `Statistics.MeanBounds` | docs/benchmarking/analysis/metrics.py:13-15 | the mean lies between minimum and maximum |
| `Statistics.SummaryBasics` | docs/benchmarking/analysis/metrics.py:88-93 | count, mean times count, minimum and maximum are the size, the sum and the ends of the sorted values |
| `Statistics.SummaryPercentiles` | docs/benchmarking/analysis/metrics.py:96-99 | median and p50, p90, p95, p99 are the values at these percentages of the way through the sorted values |
| `Statistics.SmallSummaries` | docs/benchmarking/analysis/metrics.py:13-30 | a single value is all of its statistics, no value gives zeros |
| `Statistics.SummaryOrdered` | docs/benchmarking/analysis/metrics.py:81-100 | every summary has min <= p50 = median <= p90 <= p95 <= p99 <= max and a mean between the extremes |

## Left out

- The lifecycle files are modelled as a transition system over values, not as classes changed in place, because their properties are about interleavings; aliasing and memory order below Go's sequentially consistent atomics are not captured.
- Real time in `Shutdown`: `http.Server.Shutdown` succeeds or times out nondeterministically; the cancelled base context of requests is not modelled, only that handlers may finish.
- Configuration loading, TLS files and YAML: a reload that fails before a generation number is drawn has no shared effect and is no event of the machine.
- `WaitGroup` and generation counters are unbounded; the 64-bit wrap is modelled for the balancer's counter only.
- Reload counters, the generation gauge, latency histograms and per-backend metrics: a failed reload is recorded twice (in the manager and in the watcher), so no count per attempt is claimed.
- Forwarding, header rewriting, logging, Prometheus, fsnotify and URL parsing are libraries or I/O; URL parsing and backend creation are parameters.
- What a probe finds: the HTTP check is I/O; its verdict enters the balancer's model as an arbitrary change of a health flag.
- `RoundRobin.EachHealthyOnce`: a wrap of the counter is excluded where it does harm; `FairUnlessWrap` and `CyclicUnlessWrap` say exactly where that is.
- `RoundRobinConcurrent.TicketsUnique`: draws that would wrap the counter are outside the concurrent model.
- `RoundRobinConcurrent.EvenSpread`: completeness with unhealthy members is not claimed for concurrent calls.
- `TokenBucket.MatchesIdeal`: fractional rates are covered by `MatchesExactly` for whole capacities; for a fractional capacity with a fractional rate only `RateBound` and `ExpiryUnobservable` are stated.
- `TokenBucket.BackwardStandsStill`: speaks of a key that does not expire; with callers whose clocks disagree by more than the expiry time, when Redis deletes the hash depends on its own clock.
- `Statistics.PercentileMonotone`: floating-point rounding is not modelled, numbers are reals; standard deviation is left out.
- The Redis connection with its fail-open path, the JWT authenticator, the Node router, pool, round robin and teardown, plots, reports and scripts.
