/**
 * Normalisation of a tracking-service response (script.js,
 * fetchTrackingInfo). The request itself is not modelled: the caller passes
 * in what came back, and the current local time for records the service
 * does not date.
 */
module Tracking {
  import opened Wrappers
  import opened Packages

  /** One carrier event of the shipment's history. */
  datatype Checkpoint = Checkpoint(tag: Option<string>)

  /** The `data.tracking` object of the service's payload. Absent fields are
      `None`; `checkpoints` is `None` when the history is missing or null. */
  datatype TrackingData = TrackingData(
    trackingNumber: string,
    tag: Option<string>,
    checkpoints: Option<seq<Checkpoint>>,
    updatedAt: Option<string>)

  /** An HTTP response: its status code and, when the body is JSON that has a
      `data.tracking` object, that object. */
  datatype Response = Response(status: int, tracking: Option<TrackingData>)

  /** What the request produced: a response, or a failure of the request
      itself (network error, refused connection). */
  datatype FetchOutcome = NetworkFailure | Received(response: Response)

  /** The single error every failure collapses into. */
  datatype FetchError = FetchFailed

  /** `response.ok`: the status is in the range 200-299. */
  predicate IsOk(status: int)
    ensures IsOk(status) ==> status != 400
  {
    200 <= status <= 299
  }

  /** A string that JavaScript's `||` keeps: present and not empty. */
  predicate Truthy(s: Option<string>)
    ensures Truthy(s) <==> s != None && s != Some("")
  {
    s.Some? && s.value != ""
  }

  /** JavaScript's `a || b` on an optional string and a fallback string. */
  function Or(a: Option<string>, b: string): (r: string)
    ensures r != "" <== b != ""
    ensures Truthy(a) ==> Some(r) == a
    ensures !Truthy(a) ==> r == b
  {
    if Truthy(a) then a.value else b
  }

  /** `checkpoints?.slice(-1)[0]?.tag`: the tag of the last checkpoint, if
      there is a history and it is not empty. */
  function LastCheckpointTag(cps: Option<seq<Checkpoint>>): (r: Option<string>)
    ensures cps.None? || cps.value == [] ==> r.None?
    ensures cps.Some? && cps.value != [] ==> r == cps.value[|cps.value| - 1].tag
  {
    match cps
    case None => None
    case Some(cs) => if cs == [] then None else cs[|cs| - 1].tag
  }

  /** The record built from a tracking object. Its status is the top-level
      tag when that is present and non-empty, else the last checkpoint's tag
      when that is present and non-empty, else "Unknown"; so it is never
      empty. Its last update is `updated_at` when present and non-empty,
      else the supplied current time. */
  function Normalise(t: TrackingData, now: string): (p: Package)
    ensures p.number == t.trackingNumber
    ensures p.status != ""
    ensures Truthy(t.tag) ==> p.status == t.tag.value
    ensures !Truthy(t.tag) && Truthy(LastCheckpointTag(t.checkpoints)) ==>
              p.status == LastCheckpointTag(t.checkpoints).value
    ensures !Truthy(t.tag) && !Truthy(LastCheckpointTag(t.checkpoints)) ==> p.status == "Unknown"
    ensures Truthy(t.updatedAt) ==> p.lastUpdate == t.updatedAt
    ensures !Truthy(t.updatedAt) ==> p.lastUpdate == Some(now)
  {
    Package(
      t.trackingNumber,
      Or(t.tag, Or(LastCheckpointTag(t.checkpoints), "Unknown")),
      Some(Or(t.updatedAt, now)))
  }

  /** fetchTrackingInfo after the request: a response that is neither OK nor
      status 400 fails, and so does one without a tracking object; every
      failure is the same FetchFailed. Otherwise the record is normalised. */
  function FetchTrackingInfo(outcome: FetchOutcome, now: string): (r: Result<Package, FetchError>)
    ensures r.Success? <==>
              && outcome.Received?
              && (IsOk(outcome.response.status) || outcome.response.status == 400)
              && outcome.response.tracking.Some?
    ensures r.Success? ==> r.value == Normalise(outcome.response.tracking.value, now)
  {
    match outcome
    case NetworkFailure => Failure(FetchFailed)
    case Received(response) =>
      if !IsOk(response.status) && response.status != 400 then
        Failure(FetchFailed)
      else
        match response.tracking
        case None => Failure(FetchFailed)
        case Some(t) => Success(Normalise(t, now))
  }

  /** A fetched record's status is drawn from the payload or is "Unknown". */
  lemma StatusSource(t: TrackingData, now: string)
    ensures var s := Normalise(t, now).status;
              s == "Unknown" || Some(s) == t.tag || Some(s) == LastCheckpointTag(t.checkpoints)
  {
  }
}
