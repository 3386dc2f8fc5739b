/** The records of the bridge resource: the Terraform model the framework
    decodes a plan or a state into, and the API records of the two request
    bodies, with the JSON encoding Go's `encoding/json` gives them
    (`omitempty` leaves out a nil pointer, an empty string, an empty slice). */
module BridgeModels {
  import opened Framework
  import opened Wire

  // ---------------------------------------------------------------------------
  // Terraform model (tfsdk records)

  datatype ProxyModel = ProxyModel(
    enabled: Value<bool>,
    cacheExpirationSecs: Value<int64>,
    key: Value<string>,
    schemeOverride: Value<string>)

  datatype RemoteModel = RemoteModel(url: Value<string>, insecure: Value<bool>, proxy: Option<ProxyModel>)

  /** `anonymous_endpoints` is a list attribute whose elements are themselves
      string values, each of which may be null or unknown. */
  datatype LocalModel = LocalModel(url: Value<string>, anonymousEndpoints: Value<seq<Value<string>>>)

  datatype TargetUsageModel = TargetUsageModel(low: Value<int64>, high: Value<int64>)

  datatype TunnelCreationJobModel = TunnelCreationJobModel(intervalMinutes: Value<int64>)

  datatype TunnelClosingJobModel = TunnelClosingJobModel(cronExpr: Value<string>, allowCloseUsedTunnels: Value<bool>)

  datatype JobsModel = JobsModel(tunnelCreation: Option<TunnelCreationJobModel>, tunnelClosing: Option<TunnelClosingJobModel>)

  /** A nested block is a Go pointer: `None` is nil. */
  datatype BridgeResourceModel = BridgeResourceModel(
    id: Value<string>,
    bridgeId: Value<string>,
    remote: Option<RemoteModel>,
    local: Option<LocalModel>,
    pairingToken: Value<string>,
    minTunnels: Value<int64>,
    maxTunnels: Value<int64>,
    targetUsage: Option<TargetUsageModel>,
    jobs: Option<JobsModel>,
    createdAt: Value<string>)

  /** The state the framework starts an import from: every attribute null. */
  function NullModel(): (m: BridgeResourceModel)
    ensures m.remote.None? && m.local.None? && m.targetUsage.None? && m.jobs.None?
  {
    BridgeResourceModel(Null, Null, None, None, Null, Null, Null, None, None, Null)
  }

  // ---------------------------------------------------------------------------
  // API records. A Go pointer field is an Option; a string or slice field with
  // `omitempty` is left out of the JSON when empty.

  datatype ProxyApiModel = ProxyApiModel(
    enabled: Option<bool>,
    cacheExpirationSec: Option<int64>,
    key: string,
    schemeOverride: string)

  /** `token` is declared but never set by the resource. */
  datatype RemoteApiModel = RemoteApiModel(url: string, token: string, insecure: Option<bool>, proxy: Option<ProxyApiModel>)

  /** `dialTimeoutSecs` is declared but never set by the resource. */
  datatype LocalApiModel = LocalApiModel(url: string, anonymousEndpoints: seq<string>, dialTimeoutSecs: Option<int64>)

  datatype TargetUsageApiModel = TargetUsageApiModel(low: Option<int64>, high: Option<int64>)

  /** The two anonymous structs inside `bridgeJobsAPIModel`, named. */
  datatype TunnelCreationApiModel = TunnelCreationApiModel(intervalMinutes: Option<int64>)

  datatype TunnelClosingApiModel = TunnelClosingApiModel(cronExpr: string, allowCloseUsedTunnels: Option<bool>)

  datatype JobsApiModel = JobsApiModel(tunnelCreation: Option<TunnelCreationApiModel>, tunnelClosing: Option<TunnelClosingApiModel>)

  /** Body of POST /bridges: four plain strings, none with `omitempty`. */
  datatype CreateRequestModel = CreateRequestModel(bridgeId: string, remote: string, local: string, pairingToken: string)

  /** Body of PATCH /bridges/{id}: every member is `omitempty`. */
  datatype UpdateRequestModel = UpdateRequestModel(
    remote: Option<RemoteApiModel>,
    local: Option<LocalApiModel>,
    minTunnels: Option<int64>,
    maxTunnels: Option<int64>,
    targetUsage: Option<TargetUsageApiModel>,
    jobs: Option<JobsApiModel>)

  // ---------------------------------------------------------------------------
  // JSON encoding

  /** The keys the PATCH body must never carry, at any depth: the pairing
      token, the remote token and the dial timeout (declared, never set), and
      the bridge identity, which travels in the path. */
  const PatchForbidden: set<Key> := {PairingTokenKey, TokenKey, DialTimeoutSecsKey, BridgeIdKey, BridgeIdUpperKey}

  function BoolJson(v: Option<bool>): Option<Json>
  {
    if v.Some? then Some(JBool(v.value)) else None
  }

  function IntJson(v: Option<int64>): Option<Json>
  {
    if v.Some? then Some(JInt(v.value as int)) else None
  }

  // Each encoder below is an object whose member for a key is given by a
  // `...Member` function: `None` means the key is not written.

  const ProxyKeys: set<Key> := {EnabledKey, CacheExpirationSecsKey, ProxyKeyKey, SchemeOverrideKey}

  function ProxyMember(p: ProxyApiModel, k: Key): Option<Json>
  {
    match k
    case EnabledKey => BoolJson(p.enabled)
    case CacheExpirationSecsKey => IntJson(p.cacheExpirationSec)
    case ProxyKeyKey => OmitEmptyString(p.key)
    case SchemeOverrideKey => OmitEmptyString(p.schemeOverride)
    case _ => None
  }

  function EncodeProxy(p: ProxyApiModel): (j: Json)
    ensures j.JObject? && j.members.Keys <= ProxyKeys
    ensures forall k :: Lookup(j, k) == ProxyMember(p, k)
  {
    JObject(map k | k in ProxyKeys && ProxyMember(p, k).Some? :: ProxyMember(p, k).value)
  }

  const RemoteKeys: set<Key> := {UrlKey, TokenKey, InsecureKey, ProxyKey}

  function RemoteMember(r: RemoteApiModel, k: Key): Option<Json>
  {
    match k
    case UrlKey => OmitEmptyString(r.url)
    case TokenKey => OmitEmptyString(r.token)
    case InsecureKey => BoolJson(r.insecure)
    case ProxyKey => if r.proxy.Some? then Some(EncodeProxy(r.proxy.value)) else None
    case _ => None
  }

  function EncodeRemote(r: RemoteApiModel): (j: Json)
    ensures j.JObject? && j.members.Keys <= RemoteKeys
    ensures forall k :: Lookup(j, k) == RemoteMember(r, k)
  {
    JObject(map k | k in RemoteKeys && RemoteMember(r, k).Some? :: RemoteMember(r, k).value)
  }

  const LocalKeys: set<Key> := {UrlKey, AnonymousEndpointsKey, DialTimeoutSecsKey}

  function LocalMember(l: LocalApiModel, k: Key): Option<Json>
  {
    match k
    case UrlKey => OmitEmptyString(l.url)
    case AnonymousEndpointsKey => OmitEmptyList(l.anonymousEndpoints)
    case DialTimeoutSecsKey => IntJson(l.dialTimeoutSecs)
    case _ => None
  }

  function EncodeLocal(l: LocalApiModel): (j: Json)
    ensures j.JObject? && j.members.Keys <= LocalKeys
    ensures forall k :: Lookup(j, k) == LocalMember(l, k)
  {
    JObject(map k | k in LocalKeys && LocalMember(l, k).Some? :: LocalMember(l, k).value)
  }

  const TargetUsageKeys: set<Key> := {LowKey, HighKey}

  function TargetUsageMember(t: TargetUsageApiModel, k: Key): Option<Json>
  {
    match k
    case LowKey => IntJson(t.low)
    case HighKey => IntJson(t.high)
    case _ => None
  }

  function EncodeTargetUsage(t: TargetUsageApiModel): (j: Json)
    ensures j.JObject? && j.members.Keys <= TargetUsageKeys
    ensures forall k :: Lookup(j, k) == TargetUsageMember(t, k)
  {
    JObject(map k | k in TargetUsageKeys && TargetUsageMember(t, k).Some? :: TargetUsageMember(t, k).value)
  }

  const TunnelCreationKeys: set<Key> := {IntervalMinutesKey}

  function TunnelCreationMember(c: TunnelCreationApiModel, k: Key): Option<Json>
  {
    match k
    case IntervalMinutesKey => IntJson(c.intervalMinutes)
    case _ => None
  }

  function EncodeTunnelCreation(c: TunnelCreationApiModel): (j: Json)
    ensures j.JObject? && j.members.Keys <= TunnelCreationKeys
    ensures forall k :: Lookup(j, k) == TunnelCreationMember(c, k)
  {
    JObject(map k | k in TunnelCreationKeys && TunnelCreationMember(c, k).Some? :: TunnelCreationMember(c, k).value)
  }

  const TunnelClosingKeys: set<Key> := {CronExprKey, AllowCloseUsedTunnelsKey}

  function TunnelClosingMember(c: TunnelClosingApiModel, k: Key): Option<Json>
  {
    match k
    case CronExprKey => OmitEmptyString(c.cronExpr)
    case AllowCloseUsedTunnelsKey => BoolJson(c.allowCloseUsedTunnels)
    case _ => None
  }

  function EncodeTunnelClosing(c: TunnelClosingApiModel): (j: Json)
    ensures j.JObject? && j.members.Keys <= TunnelClosingKeys
    ensures forall k :: Lookup(j, k) == TunnelClosingMember(c, k)
  {
    JObject(map k | k in TunnelClosingKeys && TunnelClosingMember(c, k).Some? :: TunnelClosingMember(c, k).value)
  }

  const JobsKeys: set<Key> := {TunnelCreationKey, TunnelClosingKey}

  function JobsMember(jobs: JobsApiModel, k: Key): Option<Json>
  {
    match k
    case TunnelCreationKey =>
      if jobs.tunnelCreation.Some? then Some(EncodeTunnelCreation(jobs.tunnelCreation.value)) else None
    case TunnelClosingKey =>
      if jobs.tunnelClosing.Some? then Some(EncodeTunnelClosing(jobs.tunnelClosing.value)) else None
    case _ => None
  }

  function EncodeJobs(jobs: JobsApiModel): (j: Json)
    ensures j.JObject? && j.members.Keys <= JobsKeys
    ensures forall k :: Lookup(j, k) == JobsMember(jobs, k)
  {
    JObject(map k | k in JobsKeys && JobsMember(jobs, k).Some? :: JobsMember(jobs, k).value)
  }

  const UpdateKeys: set<Key> := {RemoteKey, LocalKey, MinTunnelsKey, MaxTunnelsKey, TargetUsageKey, JobsKey}

  function UpdateMember(req: UpdateRequestModel, k: Key): Option<Json>
  {
    match k
    case RemoteKey => if req.remote.Some? then Some(EncodeRemote(req.remote.value)) else None
    case LocalKey => if req.local.Some? then Some(EncodeLocal(req.local.value)) else None
    case MinTunnelsKey => IntJson(req.minTunnels)
    case MaxTunnelsKey => IntJson(req.maxTunnels)
    case TargetUsageKey => if req.targetUsage.Some? then Some(EncodeTargetUsage(req.targetUsage.value)) else None
    case JobsKey => if req.jobs.Some? then Some(EncodeJobs(req.jobs.value)) else None
    case _ => None
  }

  /** The PATCH body. */
  function EncodeUpdateRequest(req: UpdateRequestModel): (j: Json)
    ensures j.JObject? && j.members.Keys <= UpdateKeys
    ensures forall k :: Lookup(j, k) == UpdateMember(req, k)
  {
    JObject(map k | k in UpdateKeys && UpdateMember(req, k).Some? :: UpdateMember(req, k).value)
  }

  /** The POST body: the four keys are always written, empty strings included. */
  function EncodeCreateRequest(req: CreateRequestModel): (j: Json)
    ensures j.JObject? && j.members.Keys == {BridgeIdKey, RemoteKey, LocalKey, PairingTokenKey}
    ensures Lookup(j, BridgeIdKey) == Some(JString(req.bridgeId))
    ensures Lookup(j, RemoteKey) == Some(JString(req.remote))
    ensures Lookup(j, LocalKey) == Some(JString(req.local))
    ensures Lookup(j, PairingTokenKey) == Some(JString(req.pairingToken))
  {
    JObject(map[
      BridgeIdKey := JString(req.bridgeId),
      RemoteKey := JString(req.remote),
      LocalKey := JString(req.local),
      PairingTokenKey := JString(req.pairingToken)])
  }
}
