/** The `bridge_stop` resource (pkg/bridge/resource_bridges_stop.go): creating
    it asks the bridge client to stop a bridge; reading it checks that the
    action endpoint still answers for that bridge. */
module BridgesStop {
  import opened Framework
  import opened Http
  import opened BridgeIdRequest

  class BridgesStopResource {
    /** The state Terraform keeps; `None` when it keeps none. */
    var tracked: Option<BridgeIdModel>

    constructor()
      ensures tracked == None
    {
      tracked := None;
    }

    /** POST `{bridge_ID}` to the stop endpoint. No path parameter is set,
        so the `{bridge_ID}` placeholder of the path is left as written. */
    method Create(plan: BridgeIdModel, outcome: Outcome) returns (call: HttpRequest, diags: seq<Diagnostic>)
      modifies this
      ensures call == HttpRequest(Post, StopAction, None, Some(BridgeIdBody(plan)))
      ensures CallVerdict(outcome) == Proceed ==> diags == [] && tracked == Some(plan)
      ensures CallVerdict(outcome).Fail? ==>
        diags == [UnableToCreate(CallVerdict(outcome).detail)] && tracked == old(tracked)
    {
      var requestBody := BridgeIdApiModel(ValueString(plan.bridgeId));
      call := HttpRequest(Post, StopAction, None, Some(EncodeBridgeIdRequest(requestBody)));
      if outcome.TransportError? {
        diags := [UnableToCreate(outcome.message)];
        return;
      }
      if IsErrorStatus(outcome.status) {
        diags := [UnableToCreate(outcome.body)];
        return;
      }
      tracked := Some(plan);
      diags := [];
    }

    /** GET the stop endpoint of the tracked bridge. A 404 drops the
        resource, any other error is a refresh error that leaves the state as
        it was, a success writes the prior state back. */
    method Read(outcome: Outcome) returns (call: HttpRequest, diags: seq<Diagnostic>)
      requires tracked.Some?
      modifies this
      ensures call == HttpRequest(Get, StopAction, Some(ValueString(old(tracked).value.bridgeId)), None)
      ensures RefreshVerdict(outcome) == Proceed ==> diags == [] && tracked == old(tracked)
      ensures RefreshVerdict(outcome) == Untrack ==> diags == [] && tracked == None
      ensures RefreshVerdict(outcome).Fail? ==>
        diags == [UnableToRefresh(RefreshVerdict(outcome).detail)] && tracked == old(tracked)
    {
      var state := tracked.value;
      call := HttpRequest(Get, StopAction, Some(ValueString(state.bridgeId)), None);
      if outcome.TransportError? {
        diags := [UnableToRefresh(outcome.message)];
        return;
      }
      if outcome.status == StatusNotFound {
        tracked := None;
        diags := [];
        return;
      }
      if IsErrorStatus(outcome.status) {
        diags := [UnableToRefresh(outcome.body)];
        return;
      }
      tracked := Some(state);
      diags := [];
    }
  }
}
