/** The two read paths: the job-status lookup (`GetJobStatus`) and the
    projection of the result table joined with store master data
    (`GetVisitInfo`). Neither writes anything. */
module Queries {
  import opened Models

  datatype StatusReply =
    | Found(info: JobStatusInfo)
    | NotFound          // "Job not found"
    | MissingJobId      // "Missing job id parameter"
    | BadJobId          // the parameter is not a decimal integer

  /** `strconv.Atoi`: `None` when the text is not an integer. */
  type IntParser = string -> Option<int>

  /** The locked lookup `status, exists := jobStatus[id]`. */
  function LookupStatus(status: map<int, JobStatusInfo>, id: int): (r: StatusReply)
    ensures r.Found? || r.NotFound?
    ensures r.Found? <==> id in status
    ensures r.Found? ==> r.info == status[id]
  {
    if id in status then Found(status[id]) else NotFound
  }

  /** `GetJobStatus` from the raw `jobid` query parameter. */
  function GetJobStatus(status: map<int, JobStatusInfo>, raw: string, atoi: IntParser): (r: StatusReply)
    ensures r == MissingJobId <==> raw == ""
    ensures r == BadJobId <==> raw != "" && atoi(raw).None?
    ensures r.Found? <==> raw != "" && atoi(raw).Some? && atoi(raw).value in status
    ensures r.Found? ==> r.info == status[atoi(raw).value]
  {
    if raw == "" then MissingJobId
    else match atoi(raw)
      case None => BadJobId
      case Some(id) => LookupStatus(status, id)
  }

  /** `storeMasterDB[storeId]`: Go yields the zero value, two empty strings,
      for an unknown store. */
  function MasterOf(master: map<string, StoreMaster>, storeId: string): StoreMaster
  {
    if storeId in master then master[storeId] else StoreMaster("", "")
  }

  /** The inner loop of `GetVisitInfo`: one `{date, perimeter}` item per
      processed image, each dated with the visit time of the stored result. */
  function DataOf(images: seq<ProcessedImage>, date: string): (data: seq<DatePerimeter>)
    ensures |data| == |images|
    ensures forall j :: 0 <= j < |images| ==> data[j] == DatePerimeter(date, images[j].perimeter)
  {
    if |images| == 0 then []
    else
      var n := |images| - 1;
      DataOf(images[..n], date) + [DatePerimeter(date, images[n].perimeter)]
  }

  /** The response record for one stored store id. */
  function Record(storeId: string, result: ProcessedResult, master: map<string, StoreMaster>, format: Time -> string): VisitResponse
  {
    var m := MasterOf(master, storeId);
    VisitResponse(storeId, m.areaCode, m.storeName, DataOf(result.processedImages, format(result.visitTime)))
  }

  /** The records `GetVisitInfo` must produce, as a set: Go's map iteration
      order is unspecified, so only the contents are determined. */
  ghost function Records(db: map<string, ProcessedResult>, master: map<string, StoreMaster>, format: Time -> string): set<VisitResponse>
  {
    set k | k in db :: Record(k, db[k], master, format)
  }

  /** Go's `range` over a map: every key exactly once, in an order the
      runtime chooses. */
  method MapOrder<K>(keys: set<K>) returns (ks: seq<K>)
    ensures |ks| == |keys|
    ensures forall k :: k in keys <==> k in ks
    ensures forall i, j :: 0 <= i < j < |ks| ==> ks[i] != ks[j]
  {
    ks := [];
    var remaining := keys;
    while remaining != {}
      invariant remaining <= keys
      invariant |ks| + |remaining| == |keys|
      invariant forall k :: k in ks <==> k in keys && k !in remaining
      invariant forall i, j :: 0 <= i < j < |ks| ==> ks[i] != ks[j]
      decreases remaining
    {
      var k :| k in remaining;
      ks := ks + [k];
      remaining := remaining - {k};
    }
  }

  /** `GetVisitInfo`: ranges over the result table and emits one record per
      store id, joined with its master data. */
  method VisitInfo(db: map<string, ProcessedResult>, master: map<string, StoreMaster>, format: Time -> string)
    returns (r: seq<VisitResponse>)
    ensures |r| == |db|
    ensures forall i :: 0 <= i < |r| ==> r[i].storeId in db && r[i] == Record(r[i].storeId, db[r[i].storeId], master, format)
    ensures forall k :: k in db ==> exists i :: 0 <= i < |r| && r[i].storeId == k
    ensures forall i, j :: 0 <= i < j < |r| ==> r[i].storeId != r[j].storeId
    ensures (set i | 0 <= i < |r| :: r[i]) == Records(db, master, format)
  {
    var ks := MapOrder(db.Keys);
    assert |db.Keys| == |db|;
    r := [];
    var n := 0;
    while n < |ks|
      invariant n <= |ks|
      invariant |r| == n
      invariant forall i :: 0 <= i < n ==> r[i] == Record(ks[i], db[ks[i]], master, format)
    {
      r := r + [Record(ks[n], db[ks[n]], master, format)];
      n := n + 1;
    }
    forall k | k in db
      ensures exists i :: 0 <= i < |r| && r[i].storeId == k
    {
      var i :| 0 <= i < |ks| && ks[i] == k;
      assert r[i].storeId == k;
    }
    ListedRecords(r, db, master, format);
  }

  /** A list holding, for each stored key, exactly the record for that key
      has the set of records `Records` as its contents. */
  lemma ListedRecords(r: seq<VisitResponse>, db: map<string, ProcessedResult>, master: map<string, StoreMaster>, format: Time -> string)
    requires forall i :: 0 <= i < |r| ==> r[i].storeId in db && r[i] == Record(r[i].storeId, db[r[i].storeId], master, format)
    requires forall k :: k in db ==> exists i :: 0 <= i < |r| && r[i].storeId == k
    ensures (set i | 0 <= i < |r| :: r[i]) == Records(db, master, format)
  {
  }

  /** Every record has as many items as the stored result has processed
      images, and carries the store's master data or empty strings. */
  lemma RecordShape(storeId: string, result: ProcessedResult, master: map<string, StoreMaster>, format: Time -> string)
    ensures var rec := Record(storeId, result, master, format);
            && rec.storeId == storeId
            && |rec.data| == |result.processedImages|
            && (forall j :: 0 <= j < |rec.data| ==>
                  rec.data[j].date == format(result.visitTime)
                  && rec.data[j].perimeter == result.processedImages[j].perimeter)
            && (storeId in master ==> rec.area == master[storeId].areaCode && rec.storeName == master[storeId].storeName)
            && (storeId !in master ==> rec.area == "" && rec.storeName == "")
  {
  }
}
