# Verification of the distributed Game of Life

A Dafny model of the server's chunked Life engine and of the code that shares its state: the rate
limiter, the gateway and the browser's predictor. `dafny verify dfyconfig.toml` checks all of it.

## What is proved

The server keeps a sparse map of 64x64 bitset chunks, wakes and hibernates them, and fans every tick out
to a worker pool. The specification it is measured against is one line, `Life.Next`, on a set of
integer points.

* **The engine is Life.** `Registry.Registry.TickAll`, written over objects and arrays as the source is, equals the
  function `RegistryModel.Tick` on the registry's value; `Refinement.TickIsLife` shows that this function is
  exactly one generation on the infinite plane; `Runs.ServerIsLife` lifts it to every run of spawns,
  wake-ups and ticks from an empty registry and an empty store.
* **The pool is a barrier.** Dispatcher, bounded channel, workers and WaitGroup are a step system
  (`WorkerPool`): nothing is lost or run twice, `wg.Wait` passes only when all is done, the pool never sticks and takes
  a bounded number of steps, every interleaving ends in the same registry, the next generation (`PoolDeterminism.PoolIsLife`), and
  with spawns landing during the round the world at the barrier is stated exactly, by what the players asked for
  (`PoolSpawns.WorldAfterSpawns`).
* **The limiter bounds and forgets.** Both Lua scripts are modelled command by command, on a Redis whose keys
  expire. Within any time window a player gets at most a full bucket plus its refill, even when the clock steps
  back; refused requests and key expiry are unobservable.
* **The browser agrees.** Its sparse predictor computes the same generation; agreement with the server on a
  rectangle decays by one cell a tick and no faster; a round's broadcasts bring every chunk it watches to the server's new
  world; replies and subscriptions stay in step over the two FIFO channels except in an exactly stated, reachable case;
  a rolled-back placement leaves no trace in exactly stated cases while no prediction is made, and with predictions none
  further out than one cell for each.

## Layout

| file | models |
|---|---|
| Bits.dfy | 64-bit words as numbers with a proved bit view; TrailingZeros, OnesCount, shifts, masks |
| Life.dfy | the specification and the chunk geometry |
| Engine.dfy | simulation/engine.go |
| Chunks.dfy | simulation/chunk.go |
| Storage.dfy | storage/redis.go |
| RegistryModel.dfy, Refinement.dfy, Runs.dfy | the registry as a value, one tick, whole runs |
| Registry.dfy | simulation/registry.go over objects |
| WorkerPool.dfy, PoolRuns.dfy, PoolDeterminism.dfy | the fan-out as a concurrent protocol |
| PoolWorld.dfy, PoolSpawns.dfy, PoolChain.dfy | rounds with spawns in between, what becomes of each spawn, and runs of such rounds |
| PoolRace.dfy, Loads.dfy | the hibernation race, reached from an empty server; rounds that load stored cells |
| RateLimit.dfy, RateLimitProofs.dfy, RateLimiter.dfy | ratelimit/rate_limiter.go: values, run properties, scripts |
| Placement.dfy, PubSub.dfy, Router.dfy, Admission.dfy | gateway/shapes.go, pubsub.go, router.go; when a placement is admitted |
| Client.dfy, Rollback.dfy, Session.dfy | viewport/app.js: picture, rollback over whole runs, event handlers |
| Mirror.dfy, Protocol.dfy, Serving.dfy | agreement with the server, the two channels, and the router as their server end |

## Hypotheses

* Spawns are atomic with respect to TickAll in `Runs`; `PoolRuns` and `PoolWorld` drop this for the worker phase, where a chunk's
  `SetRows` overwrites what landed on it before.
* The context of TickAll is not cancelled.
* The store starts empty. With atomic spawns every stored record is from then on an empty chunk; this is proved
  (`Runs.StepRefines`), not assumed, and a spawn racing a hibernation breaks it (`PoolRace.RaceSavesCell`). Without such races
  rounds with spawns chain into runs (`PoolChain.PlaysRefine`). That no cells
  are stored is needed: a chunk loaded with cells in mid-tick lives by them but hands out no halos that round. `Loads.TickAt` is
  the round without the hypothesis, `Loads.TickIsLifeIff` says exactly when it still is a generation, and
  `Loads.LoadedMidTick` is a round after that race which is none.
* Coordinates are unbounded integers.
* Which loads and saves fail, who is watching, clock readings and random colours are parameters.

## Where the code and its comments differ

* gateway/router.go:112-115 says that `DrainN` returns 0 only when the global bucket is exhausted. An empty player bucket gives 0 too, with the global token spent, and the router then answers that
  the server is busy: `Admission.CustomAdmittedIff` is the exact condition. From an empty Redis, a piece of fifty cells and then any
  other in the same instant gets there, with 9999 of 10000 global tokens left (`Admission.RefusedThoughServerIdle`).
* gateway/router.go:89-91 and ratelimit/rate_limiter.go:152-153 say that custom pieces are always placed whatever the
  player's bucket holds; the same condition shows when not.
* simulation/registry.go:67 calls the job channel unbuffered; line 77 gives it a buffer. The model takes any positive capacity.
* viewport/app.js:200-202 says an error rolls the optimistic cells back, so that no phantom cells linger. With no prediction
  step between placement and error this is so exactly if no cell of the piece stands on other grounds: live before and
  left alone since, or drawn or received since (`Rollback.RollbackExactIff`). A prediction step in between leaves phantoms
  (`Rollback.PhantomSurvives`), at most one cell further out per step (`Rollback.RollbackReach`).
* `placeAt` queues an entry even while the socket is still connecting (viewport/app.js:579 and 605). After one such click
  every reply removes the wrong entry (`Protocol.RepliesMatchIff`, and `Protocol.EarlyClickMispairs` for a run); a click
  after the socket has closed does no harm.
* simulation/registry.go:119 says that a chunk hibernates empty and with no pending work. A spawn that lands between the count
  and the save is stored with the chunk (`PoolRuns.SaveStaysEmptyIff`, `PoolRace.RaceSavesCell`); one that lands before the count keeps
  the chunk registered (`PoolSpawns.LandedBeforeCountIsKept`).
* DEPLOYMENT.md:233-235 promises restarts without loss. With atomic spawns the store holds no live cells, so a restarted server
  plays on an empty plane: the world survives exactly if it was empty (`Runs.RestartForgets`), and one placed cell is lost
  (`Runs.RestartLosesCell`).

## Model

| member | source | states |
|---|---|---|
| Life.NextMeaning | simulation/engine.go:43-55 | the rule by the size of the set of live neighbours: a point is live next exactly if they are three, or two and it is live |
| Engine.Bump | simulation/engine.go:79-95 | one live cell adds one to each of its in-buffer neighbours and to nothing else; no byte overflows |
| Engine.AddWord | simulation/engine.go:75-96 | the bit loop counts every set bit of a word once and ends because each turn clears one |
| Engine.AddToScratch | simulation/engine.go:68-98 | every one of the 4356 slots, border included, gains exactly the placed cells next to it, and stays at most 8 |
| Engine.TickBitset | simulation/engine.go:24-62 | for any halo map in any order, the result is the chunk's part of the next generation of own cells and halos together; the buffer is all-zero again |
| Engine.ApplyRule | simulation/engine.go:43-55 | from neighbour counts, the rule gives the chunk's part of the next generation |
| Engine.HasCellsNearEdge | simulation/engine.go:103-133 | true exactly if a live cell has its column below 3 or above 60, and its row, as the face or corner asks |
| Engine.TrimmedHaloIsHarmless | simulation/registry.go:238-240 | leaving out a chunk that fails the edge test changes no count, hence no cell, inside the neighbour |
| Chunks.Chunk.AddCell | simulation/chunk.go:39-46 | sets that one bit; out-of-range coordinates change nothing |
| Chunks.Chunk.RemoveCell | simulation/chunk.go:49-56 | clears that one bit and no other |
| Chunks.Chunk.PopCount | simulation/chunk.go:75-83 | counts the live cells; zero exactly for the empty chunk |
| Chunks.Chunk.Snapshot | simulation/chunk.go:88-93 | the offset list of the rows held |
| Chunks.RowsToOffsets | simulation/chunk.go:97-111 | the loop over shrinking rows computes Encode |
| Chunks.OffsetsToRows | simulation/chunk.go:115-125 | the loop over offsets computes Decode |
| Chunks.Decode | simulation/chunk.go:115-125 | a cell is lit exactly if its offset is in the list, whatever duplicates and out-of-range values the list holds |
| Chunks.EncodeMeaning | simulation/chunk.go:95-111 | offsets strictly increase, are below 4096, are as many as the population, and name exactly the live cells |
| Chunks.DecodeEncode | simulation/chunk.go:95-125 | decoding an encoded chunk gives the rows back |
| Chunks.EncodeDecode | simulation/chunk.go:95-125 | re-encoding any list gives its distinct in-range values in increasing order |
| Chunks.EncodeDecodeCanonical | simulation/chunk.go:95-125 | the codec is the identity on strictly increasing in-range lists |
| Storage.ChunkKeyInjective | storage/redis.go:32-34 | no two chunks share a key, negative coordinates included |
| Storage.ChunkKeyReads | storage/redis.go:32-34 | the key reads "chunk:", then the decimals of X, a colon, and those of Y |
| Storage.SaveThenLoad | storage/redis.go:37-82 | what is saved for a chunk is what a load yields, and no other chunk's record changes |
| Storage.RedisEngine.SaveChunk | storage/redis.go:37-50 | writes the chunk's record under its key, or nothing if the write fails |
| Storage.RedisEngine.LoadChunk | storage/redis.go:54-82 | yields the stored rows under the requested coordinates, an empty chunk if there is none, an error if the read fails |
| Registry.Registry.constructor | simulation/registry.go:73-87 | starts with no chunk |
| Registry.Registry.GetOrCreate | simulation/registry.go:136-169 | registers the chunk with its stored rows, blank if the load fails, and counts it; a registered chunk is returned unchanged; the handle is the registered chunk |
| Registry.Registry.PeekChunk | simulation/registry.go:174-189 | the registered or stored snapshot, with nothing registered |
| Registry.Registry.Hibernate | simulation/registry.go:303-311 | stores the chunk unless that fails, then deregisters and uncounts it in either case |
| Registry.Registry.Bookkeep | simulation/registry.go:119-131 | counts empty unwatched ticks, resets on any other, hibernates on the hundredth |
| Registry.Registry.Announce | simulation/registry.go:114-117 | the chunk's new snapshot is written, once, to exactly the clients watching it |
| Registry.Registry.ProcessJob | simulation/registry.go:99-132 | one job turns the registry's value into Finish of that one chunk, broadcasts its next generation to its watchers, and leaves the scratch buffer zero |
| Registry.Registry.SnapshotAll | simulation/registry.go:201-214 | the first snapshot is the rows of every registered chunk |
| Registry.Registry.DistributeHalos | simulation/registry.go:225-250 | wakes exactly the chunks of RegistryModel.FedInWorld; the halo maps hold the chunks that feed them and nothing else |
| Registry.Registry.CollectJobs | simulation/registry.go:252-271 | one job per registered chunk, with its first snapshot if it had one |
| Registry.Registry.RunJobs | simulation/registry.go:273-289 | jobs taken in any order by any worker all get done, and each finished chunk is broadcast exactly once |
| Registry.Registry.TickAll | simulation/registry.go:200-290 | the whole round, on objects, is Tick on the registry's value; it broadcasts, once each, exactly the chunks that were registered and those a live cell of another chunk lies within three cells of |
| RegistryModel.FedInWorld | simulation/registry.go:226-250 | a chunk is handed a halo exactly if some live cell of another chunk lies at most three cells outside its square, in world coordinates |
| RegistryModel.WakeOneMore | simulation/registry.go:237-249 | waking chunks one by one is waking the set of them |
| RegistryModel.FinishOneMore | simulation/registry.go:99-132 | running one more job, whichever it is, extends the set of finished jobs by it |
| RegistryModel.HalosComplete | simulation/registry.go:225-250 | once every chunk is handed out, the halo maps are those of the specification |
| Refinement.SeenIsWorld | simulation/registry.go:223-250 | within reach of a chunk, its rows and trimmed halos show the whole world |
| Refinement.UntickedStaysEmpty | simulation/registry.go:226-250 | a chunk neither registered nor woken has an empty next generation |
| Refinement.TickRows | simulation/registry.go:200-290 | after a round each ticked chunk holds its part of the next generation |
| Refinement.TickIsLife | simulation/registry.go:191-290 | one round is one generation of Life on the infinite plane |
| Runs.SpawnAddsOnePoint | gateway/router.go:38-43 | spawning adds exactly one point to the world and keeps the invariant |
| Runs.StepRefines | simulation/registry.go:134-311 | spawns, wake-ups and rounds follow the set specification; the store stays empty-valued, counters below 100, the gauge the registry's size |
| Runs.RunRefines | simulation/registry.go:134-311 | the same for every run from any state meeting the invariant |
| Runs.ServerIsLife | simulation/registry.go:134-311 | from an empty server, every run denotes the specification's run |
| Runs.RestartForgets | main.go:122-145 | after a restart every run is one from the empty plane; the world survives exactly if it was empty |
| Runs.RestartLosesCell | main.go:122-145 | one placed cell does not |
| Loads.TickAt | simulation/registry.go:200-290 | over any store, a ticked chunk lives on by the world before and the cells loaded with itself, but not with others |
| Loads.TickIsLifeIff | simulation/registry.go:240-264 | a round over any store is one generation of Life exactly if in every chunk it loads the rule says the same with and without the loaded cells |
| Loads.LoadedMidTick | simulation/registry.go:240-264 | after the hibernation race and two placements, a round that is a generation neither of the world before nor of the one with the loaded cell |
| Runs.IdleIsQuietStreak | simulation/registry.go:119-131 | a chunk's idle counter is its number of latest consecutive empty, unwatched rounds, cut at its registration |
| Runs.EvictionIsEarned | simulation/registry.go:119-131 | only an empty, unwatched chunk is evicted, on its hundredth such round |
| Runs.TickKeysInWorld | simulation/registry.go:119-250 | a round leaves registered exactly the chunks that were and those a live cell of another chunk lies within three cells of, less those whose hundredth empty, unwatched round in a row it was |
| Runs.DeadWorldHibernates | simulation/registry.go:119-131 | a dead, unwatched, unspawned world leaves an empty registry within 100 rounds |
| WorkerPool.StepKeepsBarrier | simulation/registry.go:273-289 | the WaitGroup counts the undispatched, queued and running jobs; no job is lost, doubled or shared, and the wait passes only when all are done |
| WorkerPool.StepsRunOut | simulation/registry.go:89-96 | every step of the pool lowers a measure that spawns leave alone |
| WorkerPool.NeverStuck | simulation/registry.go:73-96 | with a worker and a channel of any positive size, some step is enabled until the barrier passes |
| PoolRuns.BarrierSafety | simulation/registry.go:273-289 | when the wait has passed, every job is done and wrote its chunk exactly once; the channel never holds more than its capacity; the pool took at most nine steps a job and one |
| PoolWorld.RoundWithSpawns | simulation/registry.go:99-132 | with spawns at any point of the worker phase, a round's chunk is still registered exactly if its counter stayed below the threshold, and its object ends with its next generation and the spawns landed since its own SetRows |
| PoolSpawns.GetHandleIsWake | simulation/registry.go:136-169 | in the worker phase too, getting a handle is GetOrCreate on the registry's value, and the handle is of the registered object and the cell asked for |
| PoolSpawns.LandMarks | simulation/registry.go:48-51 | a cell landing on an object the registry holds adds exactly that world point |
| PoolSpawns.GetThenLand | gateway/router.go:39-43 | the two together are SpawnOne of the world point, whether the chunk was registered or not |
| PoolSpawns.SpawnedIsKept | simulation/registry.go:99-132 | over every run of a round, what the registry shows spawned is exactly the points asked for by actions that landed after their object's SetRows, on an object it still holds |
| PoolSpawns.WorldAfterSpawns | simulation/registry.go:252-311 | the world at the barrier is the next generation, the points asked for and kept, and cells loaded with chunks registered meanwhile |
| PoolSpawns.LandedBeforeCountIsKept | simulation/registry.go:99-131 | a spawn that lands between its chunk's SetRows and the count is never lost: the chunk stays registered and shows the point |
| PoolRuns.SaveStaysEmptyIff | simulation/registry.go:119-128 | a hibernating save stores an empty chunk exactly if no spawn landed on it since its SetRows |
| PoolChain.RoundChains | simulation/registry.go:252-311 | the registry a round with spawns leaves meets the run invariant exactly if no save stored a spawn that had slipped in, and then denotes the next generation and the points asked for and kept |
| PoolChain.PlaysRefine | simulation/registry.go:134-311 | every run of spawns, wake-ups and rounds with spawns of their own, without such saves, denotes the set-based run |
| PoolRace.NeglectIdles | simulation/registry.go:119-131 | from an empty server, a chunk in which one cell was placed and died has counted every round since |
| PoolRace.RaceSavesCell | simulation/registry.go:119-128 | and a cell spawned on it in its hundredth round, after the count, is saved with it by a run of the pool that ends with the chunk evicted |
| PoolDeterminism.OrderDoesNotMatter | simulation/registry.go:91-132 | without spawns, every interleaving of any number of workers ends with the same rows, counters, registered chunks, store and gauge |
| PoolDeterminism.PoolComputesTick | simulation/registry.go:200-290 | and that is one Tick |
| PoolDeterminism.PoolIsLife | simulation/registry.go:200-290 | from any reachable registry, whatever the workers do, the barrier opens on the next generation |
| RateLimit.KeysApart | ratelimit/rate_limiter.go:133 | players' keys are distinct and none is the global key |
| RateLimit.StepInRange | ratelimit/rate_limiter.go:20-35 | no script overfills a bucket, takes it below zero or moves last_refill back |
| RateLimiter.Limiter.Refill | ratelimit/rate_limiter.go:77-91 | the bucket a script works on: full if absent, else refilled and capped |
| RateLimiter.Limiter.CheckAndDecrement | ratelimit/rate_limiter.go:12-35 | takes one token of the refilled bucket and renews its expiry, or writes nothing |
| RateLimiter.Limiter.TokenBucketScript | ratelimit/rate_limiter.go:37-61 | check, check and rollback leave the two buckets and deadlines as RealStep says: a player's refusal gives the global token back |
| RateLimiter.Limiter.DrainNScript | ratelimit/rate_limiter.go:93-117 | one global token and up to n of the player's, clamped, or nothing when the global bucket is empty |
| RateLimiter.Limiter.AllowMutation | ratelimit/rate_limiter.go:132-145 | the mutation script with the deployed limits |
| RateLimiter.Limiter.DrainN | ratelimit/rate_limiter.go:154-163 | the drain script with the deployed limits |
| RateLimitProofs.AdmissionBound | ratelimit/rate_limiter.go:12-117 | for every mix of requests in a time window, a player gets at most capacity + rate * window, and so do all players from the global bucket, even if `now` steps back |
| RateLimitProofs.RealAdmissionBound | ratelimit/rate_limiter.go:12-117 | both bounds on a Redis that expires keys |
| RateLimitProofs.RefillTwice | ratelimit/rate_limiter.go:20-27 | refilling earlier and again later is refilling once |
| RateLimitProofs.RefillTwiceIff | ratelimit/rate_limiter.go:20-27 | with the clock stepping back, it is so exactly if the earlier refill came too early to do anything |
| RateLimitProofs.RefusalsUnobservable | ratelimit/rate_limiter.go:49-59 | under a clock that never steps back, deleting any requests that kept nothing from any run leaves every other answer unchanged |
| RateLimitProofs.TtlIsCeiling | ratelimit/rate_limiter.go:31 | the lifetime less one second is the least time that fills the bucket |
| RateLimitProofs.ExpiryUnobservable | ratelimit/rate_limiter.go:17-31 | with clocks a fixed distance apart give or take two seconds and never stepping back, every answer is that of buckets that never expire |
| RateLimitProofs.RealRefusalsUnobservable | ratelimit/rate_limiter.go:49-59 | deleting refused requests changes no other answer on a Redis that expires keys either |
| RateLimitProofs.ChargeExact | gateway/router.go:191-198 | charging n tokens at one time succeeds exactly if both buckets hold n, and otherwise takes what the poorer held |
| RateLimitProofs.ChargeOverTime | gateway/router.go:191-198 | with the clock moving on between charges: n held at the first is enough, and no more goes through than was held then and came in since |
| RateLimitProofs.FiftyPerPlayer | ratelimit/rate_limiter.go:132-145 | from an empty Redis exactly the first fifty mutations of one player in one second go through |
| RateLimitProofs.TenThousandOverall | ratelimit/rate_limiter.go:132-145 | and exactly the first ten thousand of different players |
| RateLimitProofs.RatesInNumbers | ratelimit/rate_limiter.go:137-156 | an empty bucket fills by 5 tokens a second to 50, the global one by 2000 to 10000; keys live 11 and 6 seconds |
| Admission.ShapeAdmittedIff | gateway/router.go:65-82 | a shape of n cells is admitted at one instant exactly if both buckets hold n; refused, it has still cost what the poorer one held |
| Admission.ShapeAdmittedOverTime | gateway/router.go:65-82 | the same on expiring keys with the clocks read at every check: admitted if both buckets hold n at the first, and only if they hold n less what comes in until the last |
| RateLimitProofs.StoresShadow | ratelimit/rate_limiter.go:17-31 | every store reached under clocks in step holds the buckets that never expire, each with a deadline that leaves time to fill up |
| Admission.ShapeAdmittedAfterRun | gateway/router.go:65-82 | admission over spread checks holds after every run from an empty Redis |
| Admission.CustomAdmittedIff | gateway/router.go:112-129 | a custom piece is admitted exactly if neither bucket is empty; an empty player bucket refuses it with the global token spent |
| Admission.RefusedThoughServerIdle | gateway/router.go:112-129 | from an empty Redis, a piece of at least fifty cells is admitted and any other in the same instant refused as "server busy", with 9999 global tokens left and one of them lost |
| Admission.SpawnDecided | gateway/router.go:50-59 | a spawn is refused as unavailable or rate-limited at no cost, rejected as malformed or placed at one token of each bucket |
| Admission.ShapeDecided | gateway/router.go:61-82 | a malformed or unknown shape costs nothing; one of n cells is placed exactly if both buckets hold n, and takes n or all the poorer one held |
| Admission.CustomDecided | gateway/router.go:84-135 | what is malformed, empty or off the grid costs nothing; a placed piece of n distinct cells costs its player n tokens, 25 more beyond fifty cells, or all he has, and the server one |
| Placement.WorldToChunkLocal | gateway/router.go:27-36 | truncating division with adjustment is the floor: chunk and local offset 0..63 |
| Placement.SplitUnique | gateway/router.go:25-36 | coordinates and (chunk, offset) pairs correspond one to one |
| Placement.TruncationNeedsAdjusting | gateway/router.go:30-33 | the unadjusted quotient is wrong for exactly the negative coordinates off a chunk boundary |
| Placement.PlaceAddsCells | gateway/router.go:79-81 | after placing a piece a point is live exactly if it was before or its offset from the root is listed |
| Placement.PlaceAnyOrder | gateway/router.go:132-134 | in any order and with any repeats |
| Placement.ValidateCustomCells | gateway/shapes.go:181-208 | rejects exactly the empty list and lists with a cell off the 100x100 grid; TOO_MANY_CELLS is unreachable; otherwise the distinct cells |
| Placement.DistinctMeaning | gateway/shapes.go:186-201 | those are the first occurrences in order: same elements, no duplicates |
| Placement.GridHolds | gateway/shapes.go:203-205 | by pigeonhole no duplicate-free list of grid cells is longer than 10000 |
| Placement.FullGridStands | gateway/shapes.go:160-208 | all 10000 places of the grid are a list nothing is dropped from |
| Router.ProcessSpawn | simulation/registry.go:48-51 | sets one cell of the chunk held; the registry shows it exactly if it still holds that chunk, and otherwise does not change |
| Router.SpawnWorldCell | gateway/router.go:39-43 | on objects, is SpawnOne on the registry's value |
| Router.PlaceCells | gateway/router.go:79-81 | the spawn loop is PlaceAll: live afterwards is what was, and the points whose offset from the root is listed |
| Router.Router.CheckRateLimit | gateway/router.go:176-187 | allowed without a reply, or refused with one error |
| Router.Router.ChargeN | gateway/router.go:191-198 | one check per token up to the first refusal, at most one error |
| Router.Router.RouteSpawn | gateway/router.go:50-59 | the token is taken before the payload is parsed; one reply; the world changes exactly if it is an acknowledgement |
| Router.Router.RouteShape | gateway/router.go:65-82 | unknown shapes cost nothing; else one token per cell; one reply |
| Router.Router.RouteCustom | gateway/router.go:94-135 | validation errors cost nothing; else the drain decides; the distinct cells are placed; one reply |
| Router.Router.RouteSubscribe | gateway/router.go:137-156 | subscribes to each chunk, sends a picture of each one that shows anything and registers it |
| Router.Router.RouteUnsubscribe | gateway/router.go:158-165 | removes this client from those chunks only |
| Router.Router.Route | gateway/router.go:46-173 | a placement gets exactly one reply: an error, and nothing changes, or an acknowledgement with the payload received, and the world gains exactly the cells it asks for; other messages touch neither limiter nor world and are answered only by the errors stated or pictures |
| Router.DecisionIsRequested | gateway/router.go:46-135 | the decision behind that reply, for every message and limiter: acknowledged, the world gains the spawn's point, the root plus each cell of the catalog's shape, or the root plus each cell listed |
| Router.SubscribeShowsWorld | gateway/router.go:142-156 | subscribing sends exactly the non-empty chunks of the world and changes nothing |
| Router.SubscriberSeesWorld | gateway/router.go:142-156 | a new subscriber is sent pictures of chunks asked for only, each naming exactly its live cells in world coordinates, and one of every chunk that has any |
| PubSub.Hub.Subscribe | gateway/pubsub.go:36-43 | adds one pair to the relation |
| PubSub.Hub.Unsubscribe | gateway/pubsub.go:46-54 | removes one pair; no empty set is kept |
| PubSub.Hub.UnsubscribeAll | gateway/pubsub.go:58-67 | removes all of one client's pairs and no others, deleting while ranging; no empty set is kept |
| PubSub.Hub.HasSubscribers | gateway/pubsub.go:71-75 | true exactly if some client watches the chunk |
| PubSub.Hub.Broadcast | gateway/pubsub.go:79-107 | every client watching the chunk is written the snapshot once, nobody else anything |
| Client.CellKeyInjective | viewport/app.js:466 | distinct cells have distinct string keys |
| Client.CellKeyReads | viewport/app.js:535-536 | sliced at its comma a key gives back x, then y |
| Client.Tell | viewport/app.js:534-541 | one live cell adds one to the counts of its eight neighbours |
| Client.Viewport.LocalTick | viewport/app.js:531-560 | the live set becomes exactly its next generation; survivors keep their colour |
| Client.Viewport.ReconcileChunk | viewport/app.js:443-469 | inside the chunk exactly the cells sent are live, outside nothing changes, cells already live keep their colour |
| Client.SnapshotNamesCells | viewport/app.js:463-467 | a chunk's snapshot names its live cells at the right world coordinates, negative chunks included |
| Mirror.ReconcileShowsRows | viewport/app.js:443-469 | receiving a chunk's snapshot makes the browser's cells inside it the server's rows and changes nothing outside |
| Mirror.ReconcileAllMeaning | viewport/app.js:443-469 | after any messages the last snapshot of each chunk shows, elsewhere the picture is untouched |
| Mirror.ReconcileOrder | viewport/app.js:443-469 | snapshots of distinct chunks may arrive in any order |
| Mirror.MirrorsServer | viewport/app.js:443-469 | on a registered chunk whose last snapshot is what it holds, the browser shows the server's world |
| Mirror.CallsShowNext | simulation/registry.go:114-117 | a round's broadcasts carry the next world, for each ticked chunk and no other |
| Mirror.RoundReachesClient | simulation/registry.go:114-117 | after a round's broadcasts a client shows the server's new world on every chunk it watches that ticked, evicted ones included, and its old picture elsewhere |
| Mirror.RoundMirrorsIff | simulation/registry.go:114-117 | after the round the client shows the server's world on all chunks it watches exactly if its picture was dark on those that did not tick |
| Mirror.PredictionHolds | viewport/app.js:531-562 | agreement with the server on a rectangle shrinks by one cell per round for any run, whatever is spawned outside the cone |
| Mirror.PlacingKeepsAgreement | viewport/app.js:570-577 | drawing a piece at once and having the server place it, repeats dropped or not, keeps browser and server in agreement |
| Session.Session.PlaceAt | viewport/app.js:566-609 | draws exactly the points whose offset from the root is one of the piece's, in one colour, queues them as one entry, and sends one command exactly if the socket is open |
| Session.Session.OnReply | viewport/app.js:191-215 | removes the oldest entry; an error deletes exactly its cells, all others keep their colour |
| Session.Session.OnChunkState | viewport/app.js:188-190 | a snapshot changes the picture as Receive says, and neither queue nor subscriptions |
| Session.Session.OnTimer | viewport/app.js:562 | a prediction step changes the picture as Predict says, and neither queue nor subscriptions |
| Session.Session.UpdateSubscriptions | viewport/app.js:406-425 | sends one message for the chunks that came into view and one for those that left it, none for no chunks, and ends with the needed set; does nothing unless the socket is open |
| Rollback.RollbackReach | viewport/app.js:199-206 | over any handler runs, the error that answers a placement leaves the queue as if it had never been made, and the picture too outside the piece widened by one cell per prediction |
| Rollback.RollbackExactIff | viewport/app.js:199-206 | without predictions in between, the whole picture is the one of the run without the placement exactly if no cell of the piece was live before and left alone since, or drawn or received since |
| Rollback.PhantomSurvives | viewport/app.js:200-202 | three cells in a row, one prediction and the error leave a cell nobody placed |
| Rollback.OverlapWiped | viewport/app.js:203-206 | the error of one placement wipes a cell of a later one |
| Protocol.RepliesMatchIff | viewport/app.js:185-217 | in every run, each single reply removes the entry it answers exactly if nothing was placed before the socket opened |
| Protocol.EarlyClickMispairs | viewport/app.js:598-608 | a run that gets there, whatever is in view: a click while connecting, the subscription on opening, a placement, and the reply to it removes the first entry |
| Serving.Serve | gateway/router.go:46-173 | routing a browser's message is the protocol's step for it: one answer to a placement, pictures only to a subscription, and the client's subscriptions move with it |
| Serving.BroadcastIsStep | gateway/pubsub.go:79-107 | to one client, a broadcast is the protocol's step: a picture if it watches the chunk, else nothing |
| Protocol.EveryPlacementAnswered | gateway/router.go:46-135 | each placement sent is answered once, in order; none is left when the channels are drained |
| Protocol.SubscriptionsAgree | viewport/app.js:406-425 | once the upward channel is drained the server's subscriptions are the browser's |
| Protocol.NoRedundantMessage | viewport/app.js:406-425 | in every run each Subscribe names chunks none of which, and each Unsubscribe chunks all of which, the server will hold when it reads the message |

## Left out

- Router.Router.Route: a batch of loads fails or succeeds per chunk and message, the same for peeking and registering; replies are never lost on the socket.
- Registry.Registry.RunJobs: takes jobs one after another in an arbitrary order on arbitrary workers; their real overlap is the subject of WorkerPool, whose steps are the source's lock-protected sections.
- Registry.Registry.GetOrCreate: callers racing between its two critical sections are not interleaved; the re-check is modelled, and in WorkerPool the call is one step.
- Registry.Registry.constructor: starts neither channel nor workers; they are the initial state of WorkerPool.
- PoolWorld.RoundWithSpawns: spawns between the round's snapshots and the fan-out, which SetRows overwrites, are outside it.
- PoolDeterminism.OrderDoesNotMatter: subscriptions and the success of saves are fixed for the round.
- RateLimitProofs.RealAdmissionBound: covers clocks that agree as stated; with a Redis clock running away from the requests' seconds, expiry can refill a bucket early.
- Client.Viewport.LocalTick: blended and random colours are arbitrary functions of the cell; map keys are points, not strings (Client.CellKeyInjective, Client.CellKeyReads).
- Session.Session.PlaceAt: screen coordinates, the client's token bar, the catalogue lookup and the choice of command are not modelled; a click is a piece of one cell.
- Session.Session.OnReply: an error's code is not read, so the token bar is not set to zero.
- RateLimitProofs.ChargeExact: all readings of the clock are the same second; RateLimitProofs.ChargeOverTime has them move.
- Admission.ShapeAdmittedIff: all checks are made in one instant; Admission.ShapeAdmittedOverTime has them spread.
- Rollback.RollbackReach: one way; which cells inside the widened piece come out wrong depends on the generations in between.
- Protocol.RepliesMatchIff: a disconnecting client's channels and UnsubscribeAll are not part of the runs; the browser sends well-formed messages only.
- Rows are sequences of 64 words because Go arrays are values; the buffer and the chunk are updated in place as in the source.
- Locks, logging, failed writes to a client, and metrics other than the active-chunk gauge.
- Cancellation of TickAll, int64 wrap-around of coordinates, and Lua's loss of precision above 2^53.
- Redis I/O, JSON, WebSocket upgrade and writes, secrets, process wiring and deployment; errors of the limiter appear as the `down` flag of a clock reading.
- Contents of the shape catalogue (a parameter), rendering, camera, mouse and touch handling, and the piece editor.
