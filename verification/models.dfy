/** The records the image-processing service passes between its intake, its
    job queue, its workers and its two in-memory tables. Everything here is a
    value; the shared Go maps become Dafny maps held in a state record
    (see module Pipeline). */
module Models {

  datatype Option<+T> = None | Some(value: T)

  /** `uuid.New().ID()` is a `uint32`; converting it to Go's `int` on a
      64-bit platform yields a job id in this range. */
  type Uint32 = x: int | 0 <= x < 0x1_0000_0000

  /** `rand.Intn(100)` returns an int in [0, 100). */
  type Perimeter = p: int | 0 <= p < 100

  /** One store visit: the store, the images taken there and an RFC 3339
      timestamp that is parsed only when the visit is processed. */
  datatype Visit = Visit(storeId: string, imageUrls: seq<string>, visitTime: string)

  /** A batch submission: the count the client declares and the visits. */
  datatype Request = Request(count: int, visits: seq<Visit>)

  datatype Job = Job(id: int, task: Request)

  /** Go's `JobStatusEnum` is a string type with three constants. */
  datatype StatusEnum = Pending | Completed | Failed
  {
    /** The string the status serialises to; Pending is spelled "OnGoing". */
    function Name(): string
    {
      match this
      case Pending => "OnGoing"
      case Completed => "Completed"
      case Failed => "Failed"
    }
  }

  /** Reads a status string back; the inverse of `Name`. */
  function StatusFromName(s: string): (r: Option<StatusEnum>)
    ensures r.Some? ==> r.value.Name() == s
  {
    if s == "OnGoing" then Some(Pending)
    else if s == "Completed" then Some(Completed)
    else if s == "Failed" then Some(Failed)
    else None
  }

  /** The three status strings are distinct, so a status reads back as itself. */
  lemma StatusNameRoundTrip(e: StatusEnum)
    ensures StatusFromName(e.Name()) == Some(e)
  {
  }

  datatype StatusError = StatusError(storeId: string, err: string)

  datatype JobStatusInfo = JobStatusInfo(jobId: int, status: StatusEnum, errors: seq<StatusError>)

  /** A timestamp as the model sees it: Go's zero `time.Time`, or some other
      instant that the parser produced. */
  datatype Time = ZeroTime | At(instant: int)

  /** The perimeter is a float64 in Go, converted from the int that
      `calculatePerimeter` returns, so it is an integer value. */
  datatype ProcessedImage = ProcessedImage(imageUrl: string, perimeter: int)

  datatype ProcessedResult = ProcessedResult(storeId: string, processedImages: seq<ProcessedImage>, visitTime: Time)

  /** Reference data for a store, loaded from a CSV file at start-up. */
  datatype StoreMaster = StoreMaster(storeName: string, areaCode: string)

  datatype DatePerimeter = DatePerimeter(date: string, perimeter: int)

  datatype VisitResponse = VisitResponse(storeId: string, area: string, storeName: string, data: seq<DatePerimeter>)
}
