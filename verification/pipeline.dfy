/** The whole service as one state record, with intake (`SubmitJob`) and one
    worker iteration (`createThreads`: take a job, run `ProcessImages`) as
    atomic steps. The read paths of module Queries read `status`, `db` and
    `master` of this record and change nothing. */
module Pipeline {
  import opened Models
  import opened Intake
  import opened JobQueue
  import opened Executor
  import opened Queries

  datatype State = State(
    queue: seq<Job>,                      // the buffered job channel, oldest first
    status: map<int, JobStatusInfo>,      // jobStatus
    db: map<string, ProcessedResult>,     // DataBase
    master: map<string, StoreMaster>)     // storeMasterDB, loaded at start-up

  /** The state after `main` has made the channel and the maps and loaded
      the store master data, before any request. */
  function Init(master: map<string, StoreMaster>): State
  {
    State([], map[], map[], master)
  }

  function PendingInfo(jobId: int): JobStatusInfo
  {
    JobStatusInfo(jobId, Pending, [])
  }

  datatype SubmitOutcome =
    | Created(jobId: int)             // 201 with the job id
    | Invalid(error: ValidationError) // 400, nothing written
    | Blocked                         // the channel is full: the handler waits, nothing written yet

  datatype Submitted = Submitted(outcome: SubmitOutcome, state: State)

  /** `SubmitJob` for an already decoded request; `word` is the 32-bit value
      the uuid generator supplies. */
  function Submit(s: State, req: Request, word: Uint32): (r: Submitted)
    ensures r.outcome.Invalid? <==> Validate(req).Rejected?
    ensures r.outcome.Invalid? ==> r.outcome.error == Validate(req).error && r.state == s
    ensures r.outcome.Blocked? <==> Validate(req) == Accepted && |s.queue| >= MaxQueueSize
    ensures r.outcome.Blocked? ==> r.state == s
    ensures r.outcome.Created? ==>
              && r.outcome.jobId == word
              && |r.state.queue| == |s.queue| + 1
              && r.state.queue[..|s.queue|] == s.queue
              && r.state.queue[|s.queue|] == Job(word, req)
              && r.state.status == s.status[word := PendingInfo(word)]
              && r.state.db == s.db
              && r.state.master == s.master
  {
    match Validate(req)
    case Rejected(e) => Submitted(Invalid(e), s)
    case Accepted =>
      var job := Job(word, req);
      match Enqueue(s.queue, job)
      case None => Submitted(Blocked, s)
      case Some(q) => Submitted(Created(job.id), s.(queue := q, status := s.status[job.id := PendingInfo(job.id)]))
  }

  datatype Ran = Ran(jobId: Option<int>, state: State)

  /** One iteration of a worker's loop: receive the oldest job and run it to
      completion. With the channel empty the worker waits and nothing
      changes. `draw` and `parse` stand for `rand.Intn(100)` and
      `time.Parse` during that run. */
  function RunNext(s: State, draw: Draws, parse: Parser): (r: Ran)
    ensures r.jobId.None? <==> |s.queue| == 0
    ensures r.jobId.None? ==> r.state == s
    ensures r.jobId.Some? ==>
              && r.jobId.value == s.queue[0].id
              && r.state.queue == s.queue[1..]
              && r.state.master == s.master
  {
    match Dequeue(s.queue)
    case None => Ran(None, s)
    case Some((job, rest)) =>
      var out := ProcessImages(job.task, job.id, Stores(s.status, s.db), draw, parse);
      Ran(Some(job.id), State(rest, out.status, out.db, s.master))
  }

  // ---------------------------------------------------------------------
  // Intake

  /** A request whose count disagrees with its visits is refused with the
      count-mismatch error, whatever else is wrong with it, and the state is
      untouched. */
  lemma CountMismatchHasNoEffect(s: State, req: Request, word: Uint32)
    requires req.count != |req.visits|
    ensures Submit(s, req, word) == Submitted(Invalid(CountMismatch), s)
  {
  }

  /** Only a well-formed request gets a job: declared count equal to the
      number of visits, at least one visit, and each visit with a store id
      and an image. */
  lemma CreatedOnlyForWellFormed(s: State, req: Request, word: Uint32)
    requires Submit(s, req, word).outcome.Created?
    ensures req.count == |req.visits| >= 1
    ensures forall i :: 0 <= i < |req.visits| ==> req.visits[i].storeId != "" && |req.visits[i].imageUrls| > 0
  {
  }

  /** Right after intake the new job reads back as Pending ("OnGoing") with
      no errors, and every other job id reads back as before. */
  lemma SubmitThenStatus(s: State, req: Request, word: Uint32, other: int)
    requires Submit(s, req, word).outcome.Created?
    ensures LookupStatus(Submit(s, req, word).state.status, word) == Found(JobStatusInfo(word, Pending, []))
    ensures Submit(s, req, word).state.status[word].status.Name() == "OnGoing"
    ensures other != word ==> LookupStatus(Submit(s, req, word).state.status, other) == LookupStatus(s.status, other)
  {
  }

  // ---------------------------------------------------------------------
  // Running a job

  /** After a worker step the job it ran is Completed with no errors and
      every other job's status is as before, whatever its visits were. */
  lemma RunNextStatus(s: State, draw: Draws, parse: Parser)
    requires |s.queue| > 0
    ensures var id := s.queue[0].id;
            RunNext(s, draw, parse).state.status == s.status[id := JobStatusInfo(id, Completed, [])]
  {
    var job := s.queue[0];
    ProcessImagesStatus(job.task, job.id, Stores(s.status, s.db), draw, parse);
  }

  /** A job that passed intake never records Failed, even transiently: its
      visits all have store ids, so the loop leaves the status table alone
      and the only write is the final Completed. */
  lemma AcceptedJobNeverFails(req: Request, jobId: int, st: Stores, draw: Draws, parse: Parser)
    requires Validate(req) == Accepted
    ensures VisitsLoop(req.visits, |req.visits|, jobId, st, draw, parse).status == st.status
  {
    WellFormedJobNeverFails(req, jobId, st, draw, parse);
  }

  // ---------------------------------------------------------------------
  // Invariants of the reachable states

  /** The channel never holds more than its capacity; every queued job
      passed intake and has a status entry; every stored result is filed
      under its own store id with perimeters in [0, 100); and nothing is
      filed under the empty store id. */
  ghost predicate Inv(s: State)
  {
    && |s.queue| <= MaxQueueSize
    && (forall i :: 0 <= i < |s.queue| ==> Validate(s.queue[i].task) == Accepted && s.queue[i].id in s.status)
    && GoodDb(s.db)
    && "" !in s.db
  }

  lemma InitInv(master: map<string, StoreMaster>)
    ensures Inv(Init(master))
  {
  }

  lemma SubmitKeepsInv(s: State, req: Request, word: Uint32)
    requires Inv(s)
    ensures Inv(Submit(s, req, word).state)
  {
  }

  lemma RunNextKeepsInv(s: State, draw: Draws, parse: Parser)
    requires Inv(s)
    ensures Inv(RunNext(s, draw, parse).state)
  {
    if |s.queue| > 0 {
      var job := s.queue[0];
      var r := RunNext(s, draw, parse);
      RunNextStatus(s, draw, parse);
      ProcessImagesKeepsGoodDb(job.task, job.id, Stores(s.status, s.db), draw, parse);
      ProcessImagesDbKeys(job.task, job.id, Stores(s.status, s.db), draw, parse);
      forall i | 0 <= i < |r.state.queue|
        ensures Validate(r.state.queue[i].task) == Accepted && r.state.queue[i].id in r.state.status
      {
        assert r.state.queue[i] == s.queue[i + 1];
      }
    }
  }

  /** Queued jobs have pairwise distinct ids and each still reads as
      Pending: nothing has overwritten the entry intake wrote. */
  ghost predicate QueuedArePending(s: State)
  {
    && (forall i, j :: 0 <= i < j < |s.queue| ==> s.queue[i].id != s.queue[j].id)
    && (forall i :: 0 <= i < |s.queue| ==> s.queue[i].id in s.status && s.status[s.queue[i].id].status == Pending)
  }

  /** With an id the status table has not seen (the uuid collision that
      `SubmitJob` ignores does not happen), intake keeps every queued job
      Pending. */
  lemma SubmitKeepsQueuedPending(s: State, req: Request, word: Uint32)
    requires QueuedArePending(s)
    requires word !in s.status
    ensures QueuedArePending(Submit(s, req, word).state)
  {
  }

  /** A worker step completes only the job it took; the jobs behind it stay
      Pending. */
  lemma RunNextKeepsQueuedPending(s: State, draw: Draws, parse: Parser)
    requires QueuedArePending(s)
    ensures QueuedArePending(RunNext(s, draw, parse).state)
  {
    if |s.queue| > 0 {
      var r := RunNext(s, draw, parse);
      RunNextStatus(s, draw, parse);
      forall i | 0 <= i < |r.state.queue|
        ensures r.state.queue[i].id in r.state.status && r.state.status[r.state.queue[i].id].status == Pending
      {
        assert r.state.queue[i] == s.queue[i + 1];
        assert s.queue[0].id != s.queue[i + 1].id;
      }
    }
  }

  // ---------------------------------------------------------------------
  // Scenarios

  /** One visit to store S1 with two images: intake answers with the job id
      and Pending; after one worker step the job is Completed, the result
      table holds S1 only, and the visit listing shows S1 with two
      `{date, perimeter}` items whose perimeters lie in [0, 100). */
  lemma SingleVisitScenario(master: map<string, StoreMaster>, draw: Draws, parse: Parser, format: Time -> string)
    ensures var req := Request(1, [Visit("S1", ["u1", "u2"], "2024-01-01T00:00:00Z")]);
            var sub := Submit(Init(master), req, 7);
            var run := RunNext(sub.state, draw, parse);
            && sub.outcome == Created(7)
            && LookupStatus(sub.state.status, 7) == Found(JobStatusInfo(7, Pending, []))
            && LookupStatus(run.state.status, 7) == Found(JobStatusInfo(7, Completed, []))
            && run.state.db.Keys == {"S1"}
            && var rec := Record("S1", run.state.db["S1"], master, format);
               |rec.data| == 2 && forall j :: 0 <= j < 2 ==> 0 <= rec.data[j].perimeter < 100
  {
    var v := Visit("S1", ["u1", "u2"], "2024-01-01T00:00:00Z");
    var req := Request(1, [v]);
    assert FieldsPresent(req.visits);
    var sub := Submit(Init(master), req, 7);
    RunNextStatus(sub.state, draw, parse);
    assert IsLastWith(req.visits, 1, "S1", 0);
    ProcessImagesDbKeys(req, 7, Stores(sub.state.status, sub.state.db), draw, parse);
    ProcessImagesDb(req, 7, Stores(sub.state.status, sub.state.db), draw, parse);
    var run := RunNext(sub.state, draw, parse);
    assert (set i | 0 <= i < 1 :: req.visits[i].storeId) == {"S1"};
    ProcessVisitShape(v, 0, draw, parse);
    RecordShape("S1", run.state.db["S1"], master, format);
  }

  /** Two accepted requests that draw the same 32-bit id: both are queued,
      and after the first runs the second, still waiting on the channel,
      already reads Completed. */
  lemma CollidingIdsScenario(master: map<string, StoreMaster>, draw: Draws, parse: Parser)
    ensures var req := Request(1, [Visit("S1", ["u1"], "t")]);
            var first := Submit(Init(master), req, 7);
            var second := Submit(first.state, req, 7);
            var run := RunNext(second.state, draw, parse);
            && first.outcome == Created(7) && second.outcome == Created(7)
            && run.state.queue == [Job(7, req)]
            && run.state.status[7].status == Completed
  {
  }

  /** The executor on a job whose first visit has no store id and whose
      second names S1: during the run the job reads Failed with the
      "Store ID is empty" error, at the end it reads Completed with no
      errors, and both the empty key and S1 hold results. */
  lemma EmptyStoreIdScenario(jobId: int, st: Stores, draw: Draws, parse: Parser)
    ensures var req := Request(2, [Visit("", ["u1"], "t"), Visit("S1", ["u2"], "t")]);
            var during := VisitsLoop(req.visits, 2, jobId, st, draw, parse);
            var after := ProcessImages(req, jobId, st, draw, parse);
            && jobId in during.status && during.status[jobId] == JobStatusInfo(jobId, Failed, [StatusError("", "Store ID is empty")])
            && after.status[jobId] == JobStatusInfo(jobId, Completed, [])
            && "" in after.db && "S1" in after.db
  {
  }
}
