/** What the blacklist, restart and stop resources share: a Terraform model
    with the one attribute `bridge_ID`, and a request body with the one key
    `bridge_ID` (pkg/bridge/resource_blacklist.go, resource_bridges_restart.go,
    resource_bridges_stop.go each declare the same two records). */
module BridgeIdRequest {
  import opened Framework
  import opened Wire

  /** `Blacklist/BridgesRestart/BridgesStopResourceModel`. */
  datatype BridgeIdModel = BridgeIdModel(bridgeId: Value<string>)

  /** `Blacklist/Restart/StopRequestAPIModel`: one string without `omitempty`. */
  datatype BridgeIdApiModel = BridgeIdApiModel(bridgeId: string)

  function EncodeBridgeIdRequest(req: BridgeIdApiModel): (j: Json)
    ensures j.JObject? && j.members.Keys == {BridgeIdUpperKey}
    ensures Lookup(j, BridgeIdUpperKey) == Some(JString(req.bridgeId))
  {
    JObject(map[BridgeIdUpperKey := JString(req.bridgeId)])
  }

  /** The body sent for a plan or a state: its `bridge_ID` as `ValueString()`
      gives it, so a null or unknown id is sent as the empty string. */
  function BridgeIdBody(m: BridgeIdModel): (j: Json)
    ensures j.JObject? && j.members.Keys == {BridgeIdUpperKey}
    ensures m.bridgeId.Known? ==> Lookup(j, BridgeIdUpperKey) == Some(JString(m.bridgeId.value))
    ensures !m.bridgeId.Known? ==> Lookup(j, BridgeIdUpperKey) == Some(JString(""))
  {
    EncodeBridgeIdRequest(BridgeIdApiModel(ValueString(m.bridgeId)))
  }
}
