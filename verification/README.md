# Image-processing job pipeline, modelled in Dafny

The service accepts batch requests of store visits, each visit naming a
store, a list of image URLs and a visit time. Intake validates a request,
gives it a job id, puts the job on a bounded channel of capacity
`MaxQueueSize = 5`, and records the job as Pending (the string `"OnGoing"`).
Workers take jobs off the channel and run `ProcessImages`. For each visit it
computes a random perimeter per image and stores one result per store id,
last write wins. It then marks the job Completed. Two read paths return a
job's status, and the stored results joined with store master data.

The model runs the pipeline one step at a time. The service state is one
record `State(queue, status, db, master)`. `Submit` is one intake and
`RunNext` is one worker iteration, and each is an atomic step.

Modules, one per component:

- `Models` (models.dfy): the request, job, status and result records.
- `Intake` (intake.dfy): the three intake checks, which appear verbatim in
  all three `SubmitJob` handlers.
- `JobQueue` (job_queue.dfy): the bounded FIFO channel.
- `Executor` (executor.dfy): `ProcessImages` over the two shared tables,
  with reference definitions (last visit naming a key, some visit with an
  empty store id) and lemmas linking the loop to them.
- `Queries` (queries.dfy): the status lookup and the visit listing.
- `Pipeline` (pipeline.dfy): the state record, `Submit`, `RunNext`, the
  invariants of reachable states, and two worked scenarios.

Nondeterminism and library calls become parameters:

- `rand.Intn(100)` becomes `draw: (nat, nat) -> Perimeter`. It gives the
  perimeter of image `j` of visit `i`, and `Perimeter` is the range [0, 100).
- `time.Parse` becomes `parse: string -> Option<Time>`. A failed parse
  gives Go's zero time, `ZeroTime`.
- `time.Format` becomes `format: Time -> string`.
- `strconv.Atoi` becomes `atoi: string -> Option<int>`.
- `uuid.New().ID()` becomes a `Uint32` argument. On a 64-bit platform,
  where Go's `int` has 64 bits, `int(...)` of a `uint32` is always in
  [0, 2^32).

Behaviour of the code worth knowing:

- `ProcessImages` writes Failed for a visit with an empty store id
  (main.go:343-357) and then overwrites it with Completed in the same run
  (main.go:393-396). `Executor.CompletedOverwritesFailed` states this.
- A visit with an empty store id is still processed, and its result is
  stored under the empty key `""`. `Pipeline.EmptyStoreIdScenario` shows
  this.
- Both behaviours happen only when `ProcessImages` runs on a request that
  did not pass intake. Every copy of the intake checks rejects an empty
  store id (main.go:197), so no queued job reaches either one.
  `Pipeline.AcceptedJobNeverFails` proves the Failed half: a validated job's
  visit loop leaves the status table alone. `Pipeline.RunNextKeepsInv`
  proves the empty-key half: the invariant `Pipeline.Inv` includes that no
  result is filed under `""`, and every reachable state keeps it.
- The three copies of the intake checks reject the same requests. The
  third message is spelled "Missing feilds" in main.go and in
  imageProcessing.controller.go, and "Missing fields" in ipcontroller.go.
- Job ids are only the 32 bits of `uuid.New().ID()` (main.go:204), and
  `SubmitJob` does not check for an id already in use. By the birthday
  bound the chance of a collision reaches about 1% at 9,300 jobs and about
  50% at 77,000. Two queued jobs then share one status entry, and once the
  first runs, the second, still queued, reads Completed.
  `Pipeline.CollidingIdsScenario` shows this. `Pipeline.SubmitKeepsQueuedPending`
  proves that queued jobs stay Pending only under the hypothesis that the
  new id is not yet in the status table.
- A send on a full channel blocks the handler; it does not reject the
  request. `Submit` returns `Blocked` with the state unchanged: the step is
  not enabled yet. A request that fails validation is still rejected when
  the channel is full, because validation comes first.

## Model

| member | source | states |
|---|---|---|
| `Models.StatusNameRoundTrip` | main.go:57-63 | The three status strings are distinct, so a status reads back as itself; Pending is "OnGoing" |
| `Models.StatusFromName` | controllers/imageProcessing.controller.go:15-17 | Only "OnGoing", "Completed" and "Failed" read as statuses, each as the status that prints as it |
| `Intake.FieldsPresent` | main.go:195-201 | The scan over the visits passes exactly when every visit has a non-empty store id and at least one image URL |
| `Intake.Validate` | main.go:183-201 | Accepted exactly when count equals the number of visits, there is at least one visit, and every visit is well formed. A count mismatch is reported whatever else is wrong. Count 0 with no visits is EmptyRequest. Otherwise a visit with a missing field gives MissingFields. The copies at controllers/ipcontroller.go:52-70 and controllers/imageProcessing.controller.go:42-59 are the same checks |
| `Intake.ErrorMessage` | main.go:184-199 | The 400 body for each intake error, per handler; no ensures, stated by `Intake.ErrorMessagesDistinguish` |
| `Intake.ErrorMessagesDistinguish` | controllers/ipcontroller.go:53-68 | Two handlers' messages are equal exactly when the errors are equal, except that ipcontroller.go spells "fields" differently from the other two |
| `JobQueue.Enqueue` | main.go:205 | A send succeeds exactly when fewer than MaxQueueSize = 5 jobs are buffered (main.go:19, main.go:125), and then appends the job at the tail keeping the rest |
| `JobQueue.Dequeue` | main.go:326 | A receive succeeds exactly when the channel is non-empty, and splits it into the oldest job and the rest |
| `JobQueue.FifoOrder` | main.go:125 | The channel is first in, first out: an enqueue onto a non-empty channel leaves the head in front and puts the new job last; onto an empty channel the next receive yields it |
| `Executor.ProcessUrls` | main.go:367-376 | One processed image per URL, in URL order, each with that URL and the perimeter drawn for it |
| `Executor.Persist` | main.go:404-409 | The stored result replaces any earlier one for the key; every other key keeps its entry; no key is dropped |
| `Executor.StringToDate` | main.go:411-417 | `time.Parse` of the visit time, the zero time on failure; no ensures, stated by `Executor.ProcessVisitShape` |
| `Executor.VisitsLoop` | main.go:340-390 | The visit loop of `ProcessImages` as a fold over the first n visits; no ensures, stated by `Executor.LoopStatus`, `Executor.LoopDbKeys`, `Executor.LoopDb` and `Executor.LoopKeepsGoodDb` |
| `Executor.ProcessImages` | main.go:337-397 | The whole job: the visit loop, then Completed with no errors; no ensures, stated by `Executor.ProcessImagesStatus`, `Executor.ProcessImagesDbKeys`, `Executor.ProcessImagesDb` and `Executor.ProcessImagesKeepsGoodDb` |
| `Executor.ProcessVisitShape` | main.go:360-389 | A visit's result carries its store id and one image per URL in URL order, each with the perimeter drawn for it, in [0, 100). Its time is the parsed visit time, or the zero time when the visit time does not parse |
| `Executor.LoopStatus` | main.go:343-357 | The visit loop changes the status table only at the job's own id, and only if some visit has an empty store id; the entry is then Failed with the single "Store ID is empty" error |
| `Executor.LoopDbKeys` | main.go:340-390 | After the visit loop the result table's keys are the old keys plus every store id a visit names |
| `Executor.LoopDb` | main.go:340-390 | Last write wins: a key holds the result of the last visit that names it; a key no visit names keeps its old entry |
| `Executor.LoopKeepsGoodDb` | main.go:399-402 | The visit loop keeps every entry filed under its own store id with perimeters in [0, 100) |
| `Executor.ProcessImagesStatus` | main.go:391-396 | After a job the status table is the old one with the job set to Completed and no errors, whatever the visits were; other job ids are untouched |
| `Executor.CompletedOverwritesFailed` | main.go:343-396 | When a visit has an empty store id, the job reads Failed with "Store ID is empty" after the loop, and Completed with an empty error list at the end |
| `Executor.WellFormedJobNeverFails` | main.go:343-358 | Without an empty store id the visit loop leaves the status table exactly as it was |
| `Executor.ProcessImagesDbKeys` | main.go:340-390 | After a job the result table's keys are the old keys plus the store id of every visit; no key is lost |
| `Executor.ProcessImagesDb` | main.go:337-397 | After a job, each key named by a visit holds the last such visit's result: same store id, one image per URL, in URL order. Every key no visit names keeps its entry |
| `Executor.ProcessImagesKeepsGoodDb` | main.go:399-409 | Running a job keeps the result table well filed: each entry under its own store id, perimeters in [0, 100) |
| `Queries.LookupStatus` | main.go:239-247 | The status lookup returns the stored entry exactly when the id is known, and not-found otherwise |
| `Queries.GetJobStatus` | controllers/ipcontroller.go:102-130 | An empty parameter is a missing-id error and a non-integer one a bad-id error. Otherwise the reply is the entry for that id, or not-found |
| `Queries.DataOf` | main.go:283-290 | One `{date, perimeter}` item per processed image, in order, all dated with the result's visit time |
| `Queries.MasterOf` | main.go:292 | The master data of a store, or two empty strings for an unknown store; no ensures, stated by `Queries.RecordShape` |
| `Queries.Record` | main.go:280-301 | The response record for one stored key; no ensures, stated by `Queries.RecordShape` and `Queries.VisitInfo` |
| `Queries.MapOrder` | main.go:278 | Ranging over the result table visits every key exactly once, in an order the runtime chooses |
| `Queries.VisitInfo` | main.go:273-305 | One record per stored store id, none repeated, none missing. Each record is that key's result joined with its master data. As a set the output is fully determined by the result table and the master data, so two calls with no write between them give the same records |
| `Queries.ListedRecords` | controllers/ipcontroller.go:155-184 | A list holding, for each stored key, exactly that key's record has as contents the set of all records |
| `Queries.RecordShape` | controllers/ipcontroller.go:157-180 | A record has as many data items as the result has processed images, each dated with the visit time and carrying that image's perimeter. Area and store name come from master data, or are empty strings for an unknown store |
| `Pipeline.Submit` | main.go:183-211 | Rejected exactly when validation fails, with that error and no change. Blocked exactly when valid and the channel is full, with no change. Otherwise the job with the supplied id is appended at the tail and its status becomes Pending with no errors, and nothing else changes |
| `Pipeline.RunNext` | main.go:323-333 | Nothing happens exactly when the channel is empty. Otherwise the oldest job is removed and run, and the rest of the queue and the master data are kept |
| `Pipeline.CountMismatchHasNoEffect` | main.go:184-187 | A request whose count differs from its number of visits is rejected with the count-mismatch error and the state is unchanged |
| `Pipeline.CreatedOnlyForWellFormed` | controllers/imageProcessing.controller.go:42-59 | A request that gets a job has count equal to its visits, at least one visit, and every visit with a store id and an image URL |
| `Pipeline.SubmitThenStatus` | controllers/imageProcessing.controller.go:62-70 | Right after intake the job reads as Pending ("OnGoing") with no errors, and every other id reads as before |
| `Pipeline.RunNextStatus` | main.go:391-396 | A worker step sets the job it ran to Completed with no errors and changes no other job's status |
| `Pipeline.AcceptedJobNeverFails` | main.go:343-357 | A job that passed intake never records Failed, even during the run, so the final Completed is its only status write |
| `Pipeline.InitInv` | main.go:123-128 | The start-up state satisfies the pipeline invariant |
| `Pipeline.SubmitKeepsInv` | main.go:203-211 | Intake keeps the invariant: at most 5 queued jobs, each of which passed validation and has a status entry; results filed under their store id with perimeters in [0, 100); no result under the empty store id |
| `Pipeline.RunNextKeepsInv` | main.go:323-333 | A worker step keeps the same invariant; in particular a job that passed intake never files a result under the empty store id `""` (main.go:197, main.go:404-409) |
| `Pipeline.SubmitKeepsQueuedPending` | controllers/ipcontroller.go:72-81 | With a job id not already in the status table, intake keeps queued ids distinct and every queued job Pending |
| `Pipeline.RunNextKeepsQueuedPending` | main.go:393-396 | A worker step completes only the job it took; the jobs behind it stay Pending |
| `Pipeline.SingleVisitScenario` | main.go:337-397 | One visit to S1 with two images: intake returns the id and Pending. After one worker step the job is Completed, the table holds S1 only, and the listing shows two items with perimeters in [0, 100) |
| `Pipeline.CollidingIdsScenario` | main.go:203-211 | Two accepted requests given the same 32-bit id are both queued; after the first runs, the second is still queued under that id and its status reads Completed |
| `Pipeline.EmptyStoreIdScenario` | main.go:343-396 | An empty-store-id visit followed by a visit to S1 reads Failed during the run and Completed at the end, and both "" and S1 hold results |

## Left out

- HTTP transport and JSON: handlers take already decoded requests and
  return outcome datatypes instead of status codes and bodies. The
  nil-body and decode-error replies and the `null` versus `[]` encoding of
  an empty data list are not modelled.
- Concurrency: the `Threads = 2` worker goroutines, blocking channel
  semantics and `sync.Mutex` are not modelled. `Submit` and `RunNext` are
  atomic steps, so the following are outside the model:
  - the race between the enqueue and the Pending write;
  - the unlocked status writes in `ProcessImages`;
  - the unlocked read of `DataBase` in `GetVisitInfo`.
- Channel closing: nothing in main.go closes the job channel, so the
  "channel is closed" exit of the worker loop is not modelled.
- `time.Sleep`, the log output, and the RFC 3339 parsing and formatting
  are library calls. They are left out or become parameters.
- Perimeters are float64 in the Go code. They hold integers in [0, 100), so
  they are modelled as `int`.
- `loadStoreMasterData` and Services/importStoreMasterData.go read a CSV
  file. The master data is a given map.
- `servHome` does no work on the pipeline.
- Job ids on a 32-bit platform: there `int(uuid.New().ID())` (main.go:204)
  wraps to a negative id for values of 2^31 and above. The model assumes a
  64-bit `int`.
- Separate state per copy: the controller copies of the handlers write
  their own status map and channel (`jobStatus` at
  controllers/ipcontroller.go:15; `database.JobStatus` and
  `channels.JobQueue` at controllers/imageProcessing.controller.go:64-67).
  `GetVisitInfo` at controllers/ipcontroller.go:155 ranges over its own
  result table `models.DataBase` (models/ipmodules.go:69), which neither
  main.go nor the controllers write. main.go:141-144 never registers those handlers, and
  the `controllers` package as written does not compile: `SubmitJob` is
  declared twice (controllers/ipcontroller.go:32 and
  controllers/imageProcessing.controller.go:21), and
  controllers/ipcontroller.go:166 reads a field `visitTime` where
  `ImgProcessedResult` has `VisitTime` (models/ipmodules.go:33). So
  main.go's handlers are the only copy that runs. The one `State` record
  stands for main.go's maps and channel.
- The job-count property "all submitted jobs eventually reach a terminal
  state" needs a scheduler, and the model has none. Each `RunNext` step
  completes one job.
