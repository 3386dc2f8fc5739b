/** The `bridge_blacklist` resource (pkg/bridge/resource_blacklist.go): a
    bridge id put on, read from and removed from the bridge server's
    blacklist. The source declares no Create. */
module Blacklist {
  import opened Framework
  import opened Http
  import opened BridgeIdRequest

  class BlacklistResource {
    /** The state Terraform keeps; `None` when it keeps none. */
    var tracked: Option<BridgeIdModel>

    constructor()
      ensures tracked == None
    {
      tracked := None;
    }

    /** GET the blacklist entry. A 404 drops the resource, any other error
        is a refresh error that leaves the state as it was, a success writes
        the prior state back. */
    method Read(outcome: Outcome) returns (call: HttpRequest, diags: seq<Diagnostic>)
      requires tracked.Some?
      modifies this
      ensures call == HttpRequest(Get, BlacklistEntry, Some(ValueString(old(tracked).value.bridgeId)), None)
      ensures RefreshVerdict(outcome) == Proceed ==> diags == [] && tracked == old(tracked)
      ensures RefreshVerdict(outcome) == Untrack ==> diags == [] && tracked == None
      ensures RefreshVerdict(outcome).Fail? ==>
        diags == [UnableToRefresh(RefreshVerdict(outcome).detail)] && tracked == old(tracked)
    {
      var state := tracked.value;
      call := HttpRequest(Get, BlacklistEntry, Some(ValueString(state.bridgeId)), None);
      if outcome.TransportError? {
        diags := [UnableToRefresh(outcome.message)];
        return;
      }
      if outcome.status == StatusNotFound {
        tracked := None;
        diags := [];
        return;
      }
      if IsErrorStatus(outcome.status) {
        diags := [UnableToRefresh(outcome.body)];
        return;
      }
      tracked := Some(state);
      diags := [];
    }

    /** PUT `{bridge_ID}` to the entry of the plan's bridge id. */
    method Update(plan: BridgeIdModel, outcome: Outcome) returns (call: HttpRequest, diags: seq<Diagnostic>)
      modifies this
      ensures call == HttpRequest(Put, BlacklistEntry, Some(ValueString(plan.bridgeId)), Some(BridgeIdBody(plan)))
      ensures CallVerdict(outcome) == Proceed ==> diags == [] && tracked == Some(plan)
      ensures CallVerdict(outcome).Fail? ==>
        diags == [UnableToUpdate(CallVerdict(outcome).detail)] && tracked == old(tracked)
    {
      var requestBody := BridgeIdApiModel(ValueString(plan.bridgeId));
      call := HttpRequest(Put, BlacklistEntry, Some(ValueString(plan.bridgeId)), Some(EncodeBridgeIdRequest(requestBody)));
      if outcome.TransportError? {
        diags := [UnableToUpdate(outcome.message)];
        return;
      }
      if IsErrorStatus(outcome.status) {
        diags := [UnableToUpdate(outcome.body)];
        return;
      }
      tracked := Some(plan);
      diags := [];
    }

    /** DELETE the entry. A 404 counts as already deleted. */
    method Delete(outcome: Outcome) returns (call: HttpRequest, diags: seq<Diagnostic>)
      requires tracked.Some?
      modifies this
      ensures call == HttpRequest(HttpMethod.Delete, BlacklistEntry, Some(ValueString(old(tracked).value.bridgeId)), None)
      ensures NotFoundTolerantDeleteVerdict(outcome) == Proceed ==> diags == [] && tracked == None
      ensures NotFoundTolerantDeleteVerdict(outcome).Fail? ==>
        diags == [UnableToDelete(NotFoundTolerantDeleteVerdict(outcome).detail)] && tracked == old(tracked)
    {
      var state := tracked.value;
      call := HttpRequest(HttpMethod.Delete, BlacklistEntry, Some(ValueString(state.bridgeId)), None);
      if outcome.TransportError? {
        diags := [UnableToDelete(outcome.message)];
        return;
      }
      if outcome.status == StatusNotFound {
        tracked := None;
        diags := [];
        return;
      }
      if IsErrorStatus(outcome.status) {
        diags := [UnableToDelete(outcome.body)];
        return;
      }
      tracked := None;
      diags := [];
    }
  }
}
