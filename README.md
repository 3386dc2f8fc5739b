# Bridge provider resources, modelled in Dafny

This project models the resources of the JFrog Bridge Terraform provider
(`pkg/bridge`). It covers four resources:

- `bridge`, which pairs a bridge client with a bridge server.
- `bridge_blacklist`.
- `bridge_restart` and `bridge_stop`, the two action resources.

For each verb the model states which HTTP request is issued, which
diagnostics are raised, and which state Terraform keeps afterwards. Most of
the work is on the sparse PATCH body that `buildUpdateRequest` derives from a
plan.

Modules, one per concern:

- `Framework` (`framework.dfy`): the plugin framework's three-state attribute
  values (`Null`, `Unknown`, `Known`), where `ValueString()`, `ValueInt64()`
  and `ValueBool()` give the zero value for null and unknown. Also Go's
  `int64` and the diagnostics the verbs raise.
- `Wire` (`wire.dfy`): a JSON value reduced to which keys each object
  carries and with which value. `At` follows a path of keys.
- `Http` (`http.dfy`): the outcome of one call, either a transport error or
  a response with a status and a body. A status above 399 is an error
  status, as the HTTP client's `IsError()` has it. The module also has the
  three ways the verbs classify an outcome and the request record.
- `BridgeModels` (`bridge_models.dfy`): the Terraform and API records of
  `resource_bridge.go` and their JSON encoding. Go's `omitempty` leaves out
  a nil pointer, an empty string and an empty slice.
- `BridgePayload` (`bridge_payload.dfy`): `buildUpdateRequest` and the Create
  body, with lemmas that state each field rule on the JSON path the server
  reads.
- `BridgeLifecycle` (`resource_bridge.dfy`): class `BridgeResource`, whose
  verbs are methods over the tracked state.
- `BridgeIdRequest`, `Blacklist`, `BridgesRestart`, `BridgesStop`: the
  one-attribute model and `{bridge_ID}` body shared by the three small
  resources, and their classes.

Every verb is a method of a class whose field `tracked` is the state Terraform
keeps (`None` when it keeps none). The outcome of the verb's single HTTP call
is a parameter. A verb that fails leaves `tracked` as it was.

Where the code and the provider's stated intent differ, the model follows
the code:

- An explicit `min_tunnels = 0` or `max_tunnels = 0` is not sent
  (`resource_bridge.go:439-446`). A zero `low`, `high`, `interval_minutes`
  or `cache_expiration_secs` is sent.
- An unknown integer or boolean leaf is sent with the zero value, because
  the guard is `!IsNull()`. An unknown string leaf is not sent, because
  `ValueString()` is empty and `omitempty` drops it.
- An explicitly empty `key`, `scheme_override`, `cron_expr` or `url` is not
  sent.
- `anonymous_endpoints` is sent only when the list is known, non-empty and
  made only of known elements. The conversion error of `ElementsAs` is
  discarded and leaves the slice nil (`resource_bridge.go:515-519`).
- A 404 on the bridge's Delete is a deletion error
  (`resource_bridge.go:424-427`). The blacklist's Delete counts a 404 as
  success.
- Import sets `created_at` to null, not to unknown.

## Model

| member | source | states |
|---|---|---|
| `Http.CallVerdict` | pkg/bridge/resource_bridge.go:337-344 | a transport error fails with its text; a status above 399 fails with the body; anything else proceeds; never drops tracking |
| `Http.RefreshVerdict` | pkg/bridge/resource_blacklist.go:86-101 | a 404 response, and only that, drops tracking; success is exactly a non-error response; every other error fails with the error text or body |
| `Http.NotFoundTolerantDeleteVerdict` | pkg/bridge/resource_blacklist.go:150-162 | proceeds exactly on success or 404; fails with the error text or body otherwise |
| `BridgeModels.EncodeProxy` | pkg/bridge/resource_bridge.go:95-100 | the proxy object carries only its four keys, each exactly when its pointer is non-nil or its string non-empty |
| `BridgeModels.EncodeRemote` | pkg/bridge/resource_bridge.go:102-107 | the remote object carries only url, token, insecure, proxy, each exactly when non-empty / non-nil |
| `BridgeModels.EncodeLocal` | pkg/bridge/resource_bridge.go:109-113 | the local object carries only url, anonymous_endpoints, dial_timeout_secs, each exactly when non-empty / non-nil |
| `BridgeModels.EncodeTargetUsage` | pkg/bridge/resource_bridge.go:115-118 | low and high are written exactly when their pointer is non-nil |
| `BridgeModels.EncodeTunnelCreation` | pkg/bridge/resource_bridge.go:121-123 | interval_minutes is written exactly when its pointer is non-nil |
| `BridgeModels.EncodeTunnelClosing` | pkg/bridge/resource_bridge.go:124-127 | cron_expr when non-empty, allow_close_used_tunnels when non-nil |
| `BridgeModels.EncodeJobs` | pkg/bridge/resource_bridge.go:120-128 | each sub-group is written exactly when its pointer is non-nil |
| `BridgeModels.EncodeUpdateRequest` | pkg/bridge/resource_bridge.go:150-157 | the PATCH object carries only its six keys, each exactly when its pointer is non-nil |
| `BridgeModels.EncodeCreateRequest` | pkg/bridge/resource_bridge.go:142-147 | the POST object carries exactly the four keys, empty strings included, with the record's values |
| `BridgePayload.IfNotNull` | pkg/bridge/resource_bridge.go:449-456 | a leaf is set exactly when not null, to `ValueX()`, which is the zero value for unknown |
| `BridgePayload.IfNonZero` | pkg/bridge/resource_bridge.go:439-446 | a tunnel count is set exactly when known and non-zero, to its value |
| `BridgePayload.KnownStrings` | pkg/bridge/resource_bridge.go:517 | the list converts exactly when every element is known, element by element |
| `BridgePayload.AnonymousEndpoints` | pkg/bridge/resource_bridge.go:515-519 | the slice is non-empty exactly when the list is known, non-empty and all known, and then holds the elements in order |
| `BridgePayload.BuildRemote` | pkg/bridge/resource_bridge.go:484-487 | the remote token is never assigned |
| `BridgePayload.BuildLocal` | pkg/bridge/resource_bridge.go:511-514 | the dial timeout is never assigned |
| `BridgePayload.BuildUpdateRequest` | pkg/bridge/resource_bridge.go:436-523 | each group is set exactly when its block is present; the tunnel counts exactly when known and non-zero |
| `BridgePayload.TargetUsageSends` | pkg/bridge/resource_bridge.go:447-456 | in the target_usage object, low and high are sent exactly when not null, zero kept |
| `BridgePayload.TunnelCreationSends` | pkg/bridge/resource_bridge.go:460-467 | interval_minutes is sent exactly when not null |
| `BridgePayload.TunnelClosingSends` | pkg/bridge/resource_bridge.go:469-481 | cron_expr exactly when known and non-empty; allow_close_used_tunnels exactly when not null |
| `BridgePayload.JobsSends` | pkg/bridge/resource_bridge.go:458-482 | each sub-group object is sent exactly when its block is present |
| `BridgePayload.ProxySends` | pkg/bridge/resource_bridge.go:492-508 | enabled and cache_expiration_secs exactly when not null; key and scheme_override exactly when known and non-empty |
| `BridgePayload.RemoteSends` | pkg/bridge/resource_bridge.go:484-508 | url exactly when known and non-empty; insecure exactly when not null; no token; proxy exactly when present |
| `BridgePayload.LocalSends` | pkg/bridge/resource_bridge.go:511-520 | url exactly when known and non-empty; no dial timeout; the endpoints when the converted slice is non-empty |
| `BridgePayload.PatchMembers` | pkg/bridge/resource_bridge.go:436-523 | the top-level members of the PATCH body: each group exactly when present, each tunnel count exactly when known and non-zero |
| `BridgePayload.PatchTunnelCounts` | pkg/bridge/resource_bridge.go:439-446 | `min_tunnels` / `max_tunnels` are sent exactly when known and non-zero, with their value |
| `BridgePayload.PatchDropsExplicitZero` | pkg/bridge/resource_bridge.go:439-456 | an explicit `min_tunnels = 0` is not sent while an explicit `low = 0` is |
| `BridgePayload.PatchTargetUsage` | pkg/bridge/resource_bridge.go:447-456 | target_usage is sent exactly when present; low/high exactly when not null |
| `BridgePayload.PatchJobs` | pkg/bridge/resource_bridge.go:458-482 | jobs, jobs.tunnel_creation and jobs.tunnel_closing are each sent exactly when present |
| `BridgePayload.PatchTunnelCreation` | pkg/bridge/resource_bridge.go:460-467 | jobs.tunnel_creation.interval_minutes is sent exactly when not null |
| `BridgePayload.PatchTunnelClosing` | pkg/bridge/resource_bridge.go:469-481 | cron_expr exactly when known and non-empty; allow_close_used_tunnels exactly when not null |
| `BridgePayload.PatchRemote` | pkg/bridge/resource_bridge.go:484-492 | remote is sent exactly when present; its url exactly when known and non-empty; insecure exactly when not null; never a token; proxy exactly when present |
| `BridgePayload.PatchProxy` | pkg/bridge/resource_bridge.go:492-508 | remote.proxy's four leaves follow the not-null / non-empty rules |
| `BridgePayload.PatchLocal` | pkg/bridge/resource_bridge.go:511-520 | local is sent exactly when present; url exactly when known and non-empty; never a dial timeout; the endpoints exactly when the list is known, non-empty and all known, then element by element |
| `BridgePayload.PatchIgnoresIdentity` | pkg/bridge/resource_bridge.go:383-389 | id, bridge_id, pairing_token and created_at have no effect on the PATCH body |
| `BridgePayload.PatchOmitsSecretsAndIdentity` | pkg/bridge/resource_bridge.go:150-157 | at no depth does the PATCH body carry pairing_token, token, dial_timeout_secs, bridge_id or bridge_ID |
| `BridgePayload.BuildCreateRequest` | pkg/bridge/resource_bridge.go:326-332 | the POST body has exactly bridge_id, remote (= remote.url), local (= local.url) and pairing_token, as `ValueString()` gives them |
| `BridgeIdRequest.EncodeBridgeIdRequest` | pkg/bridge/resource_blacklist.go:36-38 | the body has exactly the key bridge_ID, with the record's value |
| `BridgeIdRequest.BridgeIdBody` | pkg/bridge/resource_blacklist.go:114-116 | the body's bridge_ID is the model's bridge_ID, or empty when null or unknown |
| `BridgeLifecycle.PairingTokenMissing` | pkg/bridge/resource_bridge.go:318-324 | Create refuses exactly the tokens that are not known and non-empty |
| `BridgeLifecycle.PairingTokenIgnoredOnUpdate` | pkg/bridge/resource_bridge.go:376-381 | Update warns exactly for a known, non-empty token |
| `BridgeLifecycle.WarningMatchesCreateCheck` | pkg/bridge/resource_bridge.go:376-381 | Update warns exactly for the tokens Create accepts |
| `BridgeLifecycle.Created` | pkg/bridge/resource_bridge.go:346-347 | the stored state is the plan with id := bridge_id and created_at := null, nothing else changed |
| `BridgeLifecycle.Updated` | pkg/bridge/resource_bridge.go:383-386 | the stored state is the plan with id, bridge_id, pairing_token, created_at from the prior state, nothing else changed |
| `BridgeLifecycle.Imported` | pkg/bridge/resource_bridge.go:430-434 | bridge_id and id are the import string, created_at is null, everything else is null |
| `BridgeLifecycle.UpdateSendsPlan` | pkg/bridge/resource_bridge.go:383-389 | the PATCH body of the carried-over plan is the plan's own |
| `BridgeLifecycle.CreatedIsConsistent` | pkg/bridge/resource_bridge.go:346-347 | after Create, id equals bridge_id and created_at is null |
| `BridgeLifecycle.ImportedIsConsistent` | pkg/bridge/resource_bridge.go:430-434 | after Import, id equals bridge_id and created_at is null |
| `BridgeLifecycle.UpdatedKeepsConsistent` | pkg/bridge/resource_bridge.go:383-386 | Update keeps id = bridge_id and created_at null, and never changes bridge_id |
| `BridgeLifecycle.DeleteNotFoundFails` | pkg/bridge/resource_bridge.go:424-427 | a 404 on the bridge's Delete is a failure carrying the body |
| `BridgeLifecycle.BridgeResource.Create` | pkg/bridge/resource_bridge.go:309-349 | a missing token raises the error with no call and no state; otherwise one POST of the flat body, then the Created state or a creation error with the state unchanged |
| `BridgeLifecycle.BridgeResource.Read` | pkg/bridge/resource_bridge.go:352-363 | no call, no diagnostic, the state unchanged |
| `BridgeLifecycle.BridgeResource.Update` | pkg/bridge/resource_bridge.go:365-405 | one PATCH of the plan's body to the prior bridge_id; the token warning exactly when the token is known and non-empty, never an error; then the Updated state, or an update error with the state unchanged |
| `BridgeLifecycle.BridgeResource.Delete` | pkg/bridge/resource_bridge.go:407-428 | one DELETE to the bridge_id; any error, 404 included, is a deletion error and keeps the state; success drops it |
| `BridgeLifecycle.BridgeResource.ImportState` | pkg/bridge/resource_bridge.go:430-434 | the state becomes the Imported state |
| `Blacklist.BlacklistResource.Read` | pkg/bridge/resource_blacklist.go:69-102 | one GET for the state's bridge_ID; 404 drops the state with no error; another error raises a refresh error and keeps the state; success keeps it |
| `Blacklist.BlacklistResource.Update` | pkg/bridge/resource_blacklist.go:105-135 | one PUT of `{bridge_ID}` to the plan's bridge_ID; success stores the plan, an error raises an update error and keeps the state |
| `Blacklist.BlacklistResource.Delete` | pkg/bridge/resource_blacklist.go:139-163 | one DELETE for the state's bridge_ID; success or 404 drops the state with no error; any other error raises a deletion error and keeps the state |
| `BridgesRestart.BridgesRestartResource.Create` | pkg/bridge/resource_bridges_restart.go:68-98 | one POST of `{bridge_ID}` with no path parameter; success stores exactly the plan, an error raises a creation error and keeps the state |
| `BridgesRestart.BridgesRestartResource.Read` | pkg/bridge/resource_bridges_restart.go:101-134 | one GET for the state's bridge_ID; 404 drops the state with no error; another error raises a refresh error and keeps the state; success keeps it |
| `BridgesStop.BridgesStopResource.Create` | pkg/bridge/resource_bridges_stop.go:68-98 | one POST of `{bridge_ID}` with no path parameter; success stores exactly the plan, an error raises a creation error and keeps the state |
| `BridgesStop.BridgesStopResource.Read` | pkg/bridge/resource_bridges_stop.go:101-134 | one GET for the state's bridge_ID; 404 drops the state with no error; another error raises a refresh error and keeps the state; success keeps it |

## Left out

- Schema, Metadata, Configure and the `New...Resource` constructors: they are declarative attribute metadata and provider wiring. The `RequiresReplace` on `bridge_id` is the framework's plan modifier.
- The `go util.SendUsage...` telemetry calls: they are detached goroutines whose result is discarded.
- The HTTP client: URL text and the substitution of `{bridge_ID}`, headers, and decoding a response into `SetResult`. A failed decode is an `err`, so it is a `TransportError` here.
- The JSON text: key order, escaping and number formatting. An object is the set of keys it carries and their values.
- Decoding the plan or the prior state into the Go struct (`req.Plan.Get`, `req.State.Get`): the model's records always match the schema, so this never fails. The blacklist's Delete does not stop on such a failure, and the model does not capture that.
- Diagnostics from `resp.State.Set` and `SetAttribute`: writing a schema-shaped record never fails here.
- What Terraform and the framework keep after a verb that reports an error. The model keeps the prior state, because the verb writes nothing.
- BridgeLifecycle.BridgeResource.Create: it requires `remote` and `local` to be present. The schema makes them required, and the Go code would dereference a nil pointer otherwise.
- BridgeLifecycle.BridgeResource.Read, Update, Delete and the other resources' Read and Delete require a tracked state, because the framework calls them only for one.
- BridgeLifecycle.BridgeResource: its `Valid()` (id equals bridge_id, created_at null) holds for every state that this code's Create and Import produce. A state written by another provider version is not modelled.
- `pkg/bridge/resource_bridges_debug.go` is not part of this model. Its model is empty, its Read discards what it fetches, and it does not compile.
- The `_test.go` files assert nothing.
- Unused declarations: `bridgeDebugResponse`, `bridgeConfigAPIModel` and `BlacklistsEndpoint`. The `Token` and `DialTimeoutSecs` fields are kept only to prove that they are never sent.
- The source has no Create for the blacklist resource, so the model has none.
- Compile defects of the action files: the duplicate endpoint constants and the undefined `Bridges*RequestAPIModel` and `Bridges*APIModel` names. The model follows the evident intent: a `{bridge_ID}` body and the same outcome handling as the blacklist.
- `int64` values are carried and never computed with, so overflow does not arise.
