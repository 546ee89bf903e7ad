/** The job executor `ProcessImages` and its helpers `persistData`,
    `calculatePerimeter` and `stringToDate`. A worker runs it on one job at a
    time; here it is a pure function from the two shared tables before the
    job to the two tables after it. */
module Executor {
  import opened Models

  /** The two tables guarded by the shared lock: job status by job id, and
      the latest processed result by store id. */
  datatype Stores = Stores(status: map<int, JobStatusInfo>, db: map<string, ProcessedResult>)

  /** The random perimeter of image `j` of visit `i` of the job being run. */
  type Draws = (nat, nat) -> Perimeter

  /** `time.Parse(time.RFC3339, s)`: `None` when the text does not parse. */
  type Parser = string -> Option<Time>

  /** `stringToDate`: a parse failure is only logged, and the zero time is
      kept. */
  function StringToDate(s: string, parse: Parser): Time
  {
    match parse(s)
    case Some(t) => t
    case None => ZeroTime
  }

  /** The inner loop over a visit's image URLs, appending one processed image
      per URL. */
  function ProcessUrls(urls: seq<string>, visitIndex: nat, draw: Draws): (images: seq<ProcessedImage>)
    ensures |images| == |urls|
    ensures forall j :: 0 <= j < |urls| ==>
              images[j] == ProcessedImage(urls[j], draw(visitIndex, j))
  {
    if |urls| == 0 then []
    else
      var n := |urls| - 1;
      ProcessUrls(urls[..n], visitIndex, draw) + [ProcessedImage(urls[n], draw(visitIndex, n))]
  }

  /** The result recorded for visit number `i` of a job. */
  function ProcessVisit(v: Visit, i: nat, draw: Draws, parse: Parser): ProcessedResult
  {
    ProcessedResult(v.storeId, ProcessUrls(v.imageUrls, i, draw), StringToDate(v.visitTime, parse))
  }

  function FailedInfo(jobId: int): JobStatusInfo
  {
    JobStatusInfo(jobId, Failed, [StatusError("", "Store ID is empty")])
  }

  function CompletedInfo(jobId: int): JobStatusInfo
  {
    JobStatusInfo(jobId, Completed, [])
  }

  /** `persistData`: the new result replaces whatever was stored for the key. */
  function Persist(db: map<string, ProcessedResult>, storeId: string, result: ProcessedResult): (db': map<string, ProcessedResult>)
    ensures db'.Keys == db.Keys + {storeId}
    ensures db'[storeId] == result
    ensures forall k :: k in db && k != storeId ==> db'[k] == db[k]
  {
    db[storeId := result]
  }

  /** One iteration of the loop over the visits. An empty store id overwrites
      the job's status with Failed, and processing carries on regardless: the
      result is still stored, under the empty key. */
  function VisitStep(st: Stores, v: Visit, i: nat, jobId: int, draw: Draws, parse: Parser): Stores
  {
    var status := if v.storeId == "" then st.status[jobId := FailedInfo(jobId)] else st.status;
    Stores(status, Persist(st.db, v.storeId, ProcessVisit(v, i, draw, parse)))
  }

  /** The tables after the first `n` visits have been processed, in order. */
  function VisitsLoop(visits: seq<Visit>, n: nat, jobId: int, st: Stores, draw: Draws, parse: Parser): Stores
    requires n <= |visits|
  {
    if n == 0 then st
    else VisitStep(VisitsLoop(visits, n - 1, jobId, st, draw, parse), visits[n - 1], n - 1, jobId, draw, parse)
  }

  /** `ProcessImages(req, jobId)`: every visit, then an unconditional
      Completed write for the job. */
  function ProcessImages(req: Request, jobId: int, st: Stores, draw: Draws, parse: Parser): Stores
  {
    var after := VisitsLoop(req.visits, |req.visits|, jobId, st, draw, parse);
    Stores(after.status[jobId := CompletedInfo(jobId)], after.db)
  }

  // ---------------------------------------------------------------------
  // Reference definitions, independent of the loop

  /** Some visit among the first `n` has an empty store id. */
  ghost predicate HasEmptyStoreId(visits: seq<Visit>, n: nat)
    requires n <= |visits|
  {
    exists i :: 0 <= i < n && visits[i].storeId == ""
  }

  /** Some visit among the first `n` names `key`. */
  ghost predicate Names(visits: seq<Visit>, n: nat, key: string)
    requires n <= |visits|
  {
    exists i :: 0 <= i < n && visits[i].storeId == key
  }

  /** Visit `i` is the last of the first `n` visits that names `key`. */
  ghost predicate IsLastWith(visits: seq<Visit>, n: nat, key: string, i: nat)
    requires n <= |visits|
  {
    i < n && visits[i].storeId == key && forall j :: i < j < n ==> visits[j].storeId != key
  }

  /** A stored result is filed under its own store id and every perimeter in
      it is a value `calculatePerimeter` can return. */
  ghost predicate GoodEntry(key: string, r: ProcessedResult)
  {
    && r.storeId == key
    && forall j :: 0 <= j < |r.processedImages| ==> 0 <= r.processedImages[j].perimeter < 100
  }

  ghost predicate GoodDb(db: map<string, ProcessedResult>)
  {
    forall k :: k in db ==> GoodEntry(k, db[k])
  }

  // ---------------------------------------------------------------------
  // Properties of the loop

  /** A processed visit keeps its store id, and has one image per URL, in URL
      order, each with the perimeter drawn for it, in [0, 100); its time is
      the parsed visit time, or the zero time when parsing fails. */
  lemma ProcessVisitShape(v: Visit, i: nat, draw: Draws, parse: Parser)
    ensures var r := ProcessVisit(v, i, draw, parse);
            && GoodEntry(v.storeId, r)
            && |r.processedImages| == |v.imageUrls|
            && (forall j :: 0 <= j < |v.imageUrls| ==> r.processedImages[j].imageUrl == v.imageUrls[j])
            && (forall j :: 0 <= j < |v.imageUrls| ==> r.processedImages[j].perimeter == draw(i, j))
            && (parse(v.visitTime).None? ==> r.visitTime == ZeroTime)
            && (parse(v.visitTime).Some? ==> r.visitTime == parse(v.visitTime).value)
  {
  }

  /** The loop touches the status table only at `jobId`, and only when a
      visit has an empty store id, in which case the entry is Failed with the
      single "Store ID is empty" error. */
  lemma {:induction false} LoopStatus(visits: seq<Visit>, n: nat, jobId: int, st: Stores, draw: Draws, parse: Parser)
    requires n <= |visits|
    ensures VisitsLoop(visits, n, jobId, st, draw, parse).status ==
            if HasEmptyStoreId(visits, n) then st.status[jobId := FailedInfo(jobId)] else st.status
  {
    if n > 0 {
      LoopStatus(visits, n - 1, jobId, st, draw, parse);
      if visits[n - 1].storeId == "" {
        assert HasEmptyStoreId(visits, n);
      } else if HasEmptyStoreId(visits, n) {
        var i :| 0 <= i < n && visits[i].storeId == "";
        assert HasEmptyStoreId(visits, n - 1);
      } else {
        assert !HasEmptyStoreId(visits, n - 1);
      }
    }
  }

  /** The keys of the result table after the loop: the old ones plus every
      store id a visit names. */
  lemma {:induction false} LoopDbKeys(visits: seq<Visit>, n: nat, jobId: int, st: Stores, draw: Draws, parse: Parser)
    requires n <= |visits|
    ensures VisitsLoop(visits, n, jobId, st, draw, parse).db.Keys ==
            st.db.Keys + set i | 0 <= i < n :: visits[i].storeId
  {
    if n > 0 {
      LoopDbKeys(visits, n - 1, jobId, st, draw, parse);
      var prev := set i | 0 <= i < n - 1 :: visits[i].storeId;
      var all := set i | 0 <= i < n :: visits[i].storeId;
      assert all == prev + {visits[n - 1].storeId};
    }
  }

  /** Last write wins: a key named by some visit holds the result of the last
      visit that names it, and a key no visit names keeps its old entry. */
  lemma {:induction false} LoopDb(visits: seq<Visit>, n: nat, jobId: int, st: Stores, draw: Draws, parse: Parser)
    requires n <= |visits|
    ensures var db' := VisitsLoop(visits, n, jobId, st, draw, parse).db;
            && (forall key :: key in st.db && !Names(visits, n, key) ==> key in db' && db'[key] == st.db[key])
            && (forall key, i: nat :: IsLastWith(visits, n, key, i) ==>
                  key in db' && db'[key] == ProcessVisit(visits[i], i, draw, parse))
  {
    if n > 0 {
      LoopDb(visits, n - 1, jobId, st, draw, parse);
      var prev := VisitsLoop(visits, n - 1, jobId, st, draw, parse).db;
      var db' := VisitsLoop(visits, n, jobId, st, draw, parse).db;
      var v := visits[n - 1];
      assert db' == prev[v.storeId := ProcessVisit(v, n - 1, draw, parse)];
      forall key | key in st.db && !Names(visits, n, key)
        ensures key in db' && db'[key] == st.db[key]
      {
        assert v.storeId != key;
        assert !Names(visits, n - 1, key);
      }
      forall key, i: nat | IsLastWith(visits, n, key, i)
        ensures key in db' && db'[key] == ProcessVisit(visits[i], i, draw, parse)
      {
        if i < n - 1 {
          assert v.storeId != key;
          assert IsLastWith(visits, n - 1, key, i);
        }
      }
    }
  }

  /** The loop keeps every stored entry filed under its own key with
      perimeters in range. */
  lemma {:induction false} LoopKeepsGoodDb(visits: seq<Visit>, n: nat, jobId: int, st: Stores, draw: Draws, parse: Parser)
    requires n <= |visits|
    requires GoodDb(st.db)
    ensures GoodDb(VisitsLoop(visits, n, jobId, st, draw, parse).db)
  {
    if n > 0 {
      LoopKeepsGoodDb(visits, n - 1, jobId, st, draw, parse);
      ProcessVisitShape(visits[n - 1], n - 1, draw, parse);
    }
  }

  // ---------------------------------------------------------------------
  // Properties of ProcessImages

  /** Whatever the visits were, the job ends Completed with no errors and no
      other job's status changes: the final status table is independent of
      the visits. */
  lemma ProcessImagesStatus(req: Request, jobId: int, st: Stores, draw: Draws, parse: Parser)
    ensures ProcessImages(req, jobId, st, draw, parse).status == st.status[jobId := CompletedInfo(jobId)]
  {
    LoopStatus(req.visits, |req.visits|, jobId, st, draw, parse);
  }

  /** The quirk of the executor: a visit with an empty store id records
      Failed during the loop, and the final write replaces it with Completed
      and an empty error list. */
  lemma CompletedOverwritesFailed(req: Request, jobId: int, st: Stores, draw: Draws, parse: Parser)
    requires exists i :: 0 <= i < |req.visits| && req.visits[i].storeId == ""
    ensures var during := VisitsLoop(req.visits, |req.visits|, jobId, st, draw, parse);
            jobId in during.status && during.status[jobId].status == Failed
            && during.status[jobId].errors == [StatusError("", "Store ID is empty")]
    ensures var after := ProcessImages(req, jobId, st, draw, parse);
            jobId in after.status && after.status[jobId].status == Completed
            && after.status[jobId].errors == []
  {
    LoopStatus(req.visits, |req.visits|, jobId, st, draw, parse);
    ProcessImagesStatus(req, jobId, st, draw, parse);
  }

  /** Without an empty store id the loop never writes the status table, so
      the only status write of the run is the final Completed. */
  lemma WellFormedJobNeverFails(req: Request, jobId: int, st: Stores, draw: Draws, parse: Parser)
    requires forall i :: 0 <= i < |req.visits| ==> req.visits[i].storeId != ""
    ensures VisitsLoop(req.visits, |req.visits|, jobId, st, draw, parse).status == st.status
  {
    LoopStatus(req.visits, |req.visits|, jobId, st, draw, parse);
  }

  /** The keys of the result table after a job: the old ones plus the store
      id of every visit; none is lost. */
  lemma ProcessImagesDbKeys(req: Request, jobId: int, st: Stores, draw: Draws, parse: Parser)
    ensures ProcessImages(req, jobId, st, draw, parse).db.Keys ==
            st.db.Keys + set i | 0 <= i < |req.visits| :: req.visits[i].storeId
  {
    LoopDbKeys(req.visits, |req.visits|, jobId, st, draw, parse);
  }

  /** The result table after a job: each key named by a visit holds the
      result of the last such visit (same store id, one image per URL in
      URL order); every other key keeps its entry. */
  lemma ProcessImagesDb(req: Request, jobId: int, st: Stores, draw: Draws, parse: Parser)
    ensures var db' := ProcessImages(req, jobId, st, draw, parse).db;
            forall key :: key in st.db && !Names(req.visits, |req.visits|, key) ==>
              key in db' && db'[key] == st.db[key]
    ensures var db' := ProcessImages(req, jobId, st, draw, parse).db;
            forall key, i: nat :: IsLastWith(req.visits, |req.visits|, key, i) ==>
              && key in db'
              && db'[key] == ProcessVisit(req.visits[i], i, draw, parse)
              && db'[key].storeId == key
              && |db'[key].processedImages| == |req.visits[i].imageUrls|
              && forall j :: 0 <= j < |req.visits[i].imageUrls| ==>
                   db'[key].processedImages[j].imageUrl == req.visits[i].imageUrls[j]
  {
    var n := |req.visits|;
    LoopDb(req.visits, n, jobId, st, draw, parse);
    forall key, i: nat | IsLastWith(req.visits, n, key, i)
      ensures |ProcessVisit(req.visits[i], i, draw, parse).processedImages| == |req.visits[i].imageUrls|
    {
      ProcessVisitShape(req.visits[i], i, draw, parse);
    }
  }

  /** Running a job keeps the result table well filed. */
  lemma ProcessImagesKeepsGoodDb(req: Request, jobId: int, st: Stores, draw: Draws, parse: Parser)
    requires GoodDb(st.db)
    ensures GoodDb(ProcessImages(req, jobId, st, draw, parse).db)
  {
    LoopKeepsGoodDb(req.visits, |req.visits|, jobId, st, draw, parse);
  }
}
