/** The outcome of one call through the HTTP client, the requests the resources
    issue, and the classification of an outcome into what a verb does next. */
module Http {
  import opened Framework
  import opened Wire

  /** What the client returns: a transport error (`err != nil`) or a response
      with its status code and body text (`response.String()`). */
  datatype Outcome = TransportError(message: string) | Response(status: int, body: string)

  /** `http.StatusNotFound`. */
  const StatusNotFound: int := 404

  /** The client's `IsError()`: a status code above 399. */
  predicate IsErrorStatus(status: int)
  {
    status > 399
  }

  predicate IsNotFound(o: Outcome)
  {
    o.Response? && o.status == StatusNotFound
  }

  predicate Succeeded(o: Outcome)
  {
    o.Response? && !IsErrorStatus(o.status)
  }

  /** The text an error diagnostic carries: `err.Error()` or the response body. */
  function ErrorDetail(o: Outcome): string
  {
    if o.TransportError? then o.message else o.body
  }

  /** What a verb does with an outcome: carry on and write its state, stop
      tracking the resource, or fail with the given detail. */
  datatype Verdict = Proceed | Untrack | Fail(detail: string)

  /** A call whose every error status is a failure: the creates, the updates
      and the bridge's delete. */
  function CallVerdict(o: Outcome): (v: Verdict)
    ensures v == Proceed <==> Succeeded(o)
    ensures v != Untrack
    ensures v.Fail? ==> v.detail == ErrorDetail(o)
  {
    if o.TransportError? then Fail(o.message)
    else if IsErrorStatus(o.status) then Fail(o.body)
    else Proceed
  }

  /** A refresh: a 404 means the remote object is gone and the resource is
      dropped from tracking; any other error status is a failure. */
  function RefreshVerdict(o: Outcome): (v: Verdict)
    ensures v == Untrack <==> IsNotFound(o)
    ensures v == Proceed <==> Succeeded(o)
    ensures v.Fail? ==> v.detail == ErrorDetail(o)
    ensures !IsNotFound(o) ==> v == CallVerdict(o)
  {
    if o.TransportError? then Fail(o.message)
    else if o.status == StatusNotFound then Untrack
    else if IsErrorStatus(o.status) then Fail(o.body)
    else Proceed
  }

  /** A delete that counts a 404 as already done. */
  function NotFoundTolerantDeleteVerdict(o: Outcome): (v: Verdict)
    ensures v == Proceed <==> Succeeded(o) || IsNotFound(o)
    ensures v != Untrack
    ensures v.Fail? ==> v.detail == ErrorDetail(o)
    ensures !IsNotFound(o) ==> v == CallVerdict(o)
  {
    if o.TransportError? then Fail(o.message)
    else if o.status == StatusNotFound then Proceed
    else if IsErrorStatus(o.status) then Fail(o.body)
    else Proceed
  }

  datatype HttpMethod = Get | Post | Put | Patch | Delete

  /** The endpoint constants of the four resources. */
  datatype Endpoint =
    | BridgesBase       // "/bridge-client/api/v1/bridges", with "/<id>" appended when `pathId` is set
    | BlacklistEntry    // "bridge-server/api/v1/blacklist/{bridge_ID}"
    | RestartAction     // "bridge-client/api/v1/bridges/{bridge_ID}/restart"
    | StopAction        // "bridge-client/api/v1/bridges/{bridge_ID}/stop"

  /** One request as the resource issues it. `pathId` is the identifier that
      is put into the path (appended, or substituted for `{bridge_ID}`);
      `None` leaves the path as the constant has it. */
  datatype HttpRequest = HttpRequest(verb: HttpMethod, endpoint: Endpoint, pathId: Option<string>, body: Option<Json>)
}
