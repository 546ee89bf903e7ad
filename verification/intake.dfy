/** Intake validation of a batch submission. The same three checks appear in
    each of the three `SubmitJob` handlers; they are modelled once here, and
    only the wording of the third error message differs between handlers. */
module Intake {
  import opened Models

  datatype ValidationError = CountMismatch | EmptyRequest | MissingFields

  datatype Verdict = Accepted | Rejected(error: ValidationError)

  /** A visit names its store and carries at least one image. */
  predicate WellFormedVisit(v: Visit)
  {
    v.storeId != "" && |v.imageUrls| > 0
  }

  /** The `for _, visit := range req.Visits` scan: stops at the first visit
      with a missing field. */
  function FieldsPresent(visits: seq<Visit>): (ok: bool)
    ensures ok <==> forall i :: 0 <= i < |visits| ==> WellFormedVisit(visits[i])
  {
    if |visits| == 0 then true
    else if visits[0].storeId == "" || |visits[0].imageUrls| == 0 then false
    else FieldsPresent(visits[1..])
  }

  /** The three checks, in the order the handlers make them. */
  function Validate(req: Request): (v: Verdict)
    // accepted requests are exactly the well-formed, non-empty, correctly counted ones
    ensures v == Accepted <==>
              && req.count == |req.visits|
              && |req.visits| >= 1
              && forall i :: 0 <= i < |req.visits| ==> WellFormedVisit(req.visits[i])
    // a count mismatch is reported whatever else is wrong with the request
    ensures v == Rejected(CountMismatch) <==> req.count != |req.visits|
    ensures v == Rejected(EmptyRequest) <==> req.count == 0 && |req.visits| == 0
    ensures v == Rejected(MissingFields) <==>
              && req.count == |req.visits|
              && |req.visits| >= 1
              && exists i :: 0 <= i < |req.visits| && !WellFormedVisit(req.visits[i])
  {
    if req.count != |req.visits| then Rejected(CountMismatch)
    else if req.count == 0 && |req.visits| == 0 then Rejected(EmptyRequest)
    else if !FieldsPresent(req.visits) then Rejected(MissingFields)
    else Accepted
  }

  /** The three handlers that carry a copy of the checks. */
  datatype Handler = MainSubmit | IpController | ImageProcessingController

  /** The body of the 400 response each handler sends for each error. */
  function ErrorMessage(h: Handler, e: ValidationError): string
  {
    match e
    case CountMismatch => "Count is not equal to the number of visits"
    case EmptyRequest => "Count and visits are empty"
    case MissingFields => if h == IpController then "Missing fields" else "Missing feilds"
  }

  /** Within one handler the message tells the three errors apart; across
      handlers the messages agree except for the spelling of "fields". */
  lemma ErrorMessagesDistinguish(h: Handler, h': Handler, e: ValidationError, e': ValidationError)
    ensures ErrorMessage(h, e) == ErrorMessage(h', e') <==>
              e == e' && (e != MissingFields || (h == IpController <==> h' == IpController))
  {
  }
}
