/** The two request bodies of the bridge resource: the flat POST body that
    Create sends, and the sparse PATCH body that `buildUpdateRequest` derives
    from a plan (pkg/bridge/resource_bridge.go). */
module BridgePayload {
  import opened Framework
  import opened Wire
  import opened BridgeModels

  // ---------------------------------------------------------------------------
  // The field rules of buildUpdateRequest

  /** A leaf guarded by `!IsNull()`: an unknown value is sent too, as the
      zero value its `ValueX()` gives. */
  function IfNotNull<T>(v: Value<T>, zero: T): (r: Option<T>)
    ensures r.Some? <==> !v.Null?
    ensures r.Some? ==> r.value == v.ValueOr(zero)
  {
    if v.Null? then None else Some(v.ValueOr(zero))
  }

  /** `min_tunnels` and `max_tunnels`: non-null and `ValueInt64() != 0`. */
  function IfNonZero(v: Value<int64>): (r: Option<int64>)
    ensures r.Some? <==> v.Known? && v.value != 0
    ensures r.Some? ==> r.value == v.value
  {
    if !v.Null? && ValueInt64(v) != 0 then Some(ValueInt64(v)) else None
  }

  /** `ElementsAs` into a `[]string`: it succeeds only when every element is
      known (a null or unknown element cannot be stored in a Go string). */
  function KnownStrings(xs: seq<Value<string>>): (r: Option<seq<string>>)
    ensures r.Some? <==> forall i | 0 <= i < |xs| :: xs[i].Known?
    ensures r.Some? ==> |r.value| == |xs| && forall i | 0 <= i < |xs| :: r.value[i] == xs[i].value
  {
    if xs == [] then Some([])
    else if !xs[0].Known? then None
    else match KnownStrings(xs[1..])
      case None => None
      case Some(rest) => Some([xs[0].value] + rest)
  }

  /** The `anonymous_endpoints` slice: the list is read only when it is not
      null; the conversion's error is discarded, which leaves the slice nil
      when the list is unknown or one of its elements is not known. */
  function AnonymousEndpoints(v: Value<seq<Value<string>>>): (r: seq<string>)
    ensures r != [] <==> v.Known? && v.value != [] && forall i | 0 <= i < |v.value| :: v.value[i].Known?
    ensures r != [] ==> |r| == |v.value| && forall i | 0 <= i < |r| :: r[i] == v.value[i].value
  {
    if v.Null? then []
    else if v.Unknown? then []
    else match KnownStrings(v.value)
      case None => []
      case Some(endpoints) => endpoints
  }

  // ---------------------------------------------------------------------------
  // The groups of the PATCH body, one builder per nested block. What each
  // sends is stated on the JSON, by the lemmas further down.

  function BuildTargetUsage(t: TargetUsageModel): TargetUsageApiModel
  {
    TargetUsageApiModel(IfNotNull(t.low, 0), IfNotNull(t.high, 0))
  }

  function BuildTunnelCreation(c: TunnelCreationJobModel): TunnelCreationApiModel
  {
    TunnelCreationApiModel(IfNotNull(c.intervalMinutes, 0))
  }

  /** `cron_expr` is set only when non-empty; `omitempty` would drop it anyway. */
  function BuildTunnelClosing(c: TunnelClosingJobModel): TunnelClosingApiModel
  {
    TunnelClosingApiModel(if ValueString(c.cronExpr) != "" then ValueString(c.cronExpr) else "",
                          IfNotNull(c.allowCloseUsedTunnels, false))
  }

  function BuildJobs(jobs: JobsModel): JobsApiModel
  {
    JobsApiModel(
      if jobs.tunnelCreation.Some? then Some(BuildTunnelCreation(jobs.tunnelCreation.value)) else None,
      if jobs.tunnelClosing.Some? then Some(BuildTunnelClosing(jobs.tunnelClosing.value)) else None)
  }

  function BuildProxy(p: ProxyModel): ProxyApiModel
  {
    ProxyApiModel(
      IfNotNull(p.enabled, false),
      IfNotNull(p.cacheExpirationSecs, 0),
      if ValueString(p.key) != "" then ValueString(p.key) else "",
      if ValueString(p.schemeOverride) != "" then ValueString(p.schemeOverride) else "")
  }

  /** The remote group. The url is copied as `ValueString()` gives it, so a
      null or unknown url is the empty string and is left out; the token is
      never assigned. */
  function BuildRemote(rm: RemoteModel): (r: RemoteApiModel)
    ensures r.token == ""
  {
    RemoteApiModel(
      ValueString(rm.url),
      "",
      IfNotNull(rm.insecure, false),
      if rm.proxy.Some? then Some(BuildProxy(rm.proxy.value)) else None)
  }

  /** The local group; the dial timeout is never assigned. */
  function BuildLocal(l: LocalModel): (r: LocalApiModel)
    ensures r.dialTimeoutSecs.None?
  {
    LocalApiModel(ValueString(l.url), AnonymousEndpoints(l.anonymousEndpoints), None)
  }

  /** `buildUpdateRequest`: the PATCH record of a plan. */
  function BuildUpdateRequest(m: BridgeResourceModel): (r: UpdateRequestModel)
    ensures r.minTunnels.Some? <==> m.minTunnels.Known? && m.minTunnels.value != 0
    ensures r.maxTunnels.Some? <==> m.maxTunnels.Known? && m.maxTunnels.value != 0
    ensures r.targetUsage.Some? <==> m.targetUsage.Some?
    ensures r.jobs.Some? <==> m.jobs.Some?
    ensures r.remote.Some? <==> m.remote.Some?
    ensures r.local.Some? <==> m.local.Some?
  {
    UpdateRequestModel(
      if m.remote.Some? then Some(BuildRemote(m.remote.value)) else None,
      if m.local.Some? then Some(BuildLocal(m.local.value)) else None,
      IfNonZero(m.minTunnels),
      IfNonZero(m.maxTunnels),
      if m.targetUsage.Some? then Some(BuildTargetUsage(m.targetUsage.value)) else None,
      if m.jobs.Some? then Some(BuildJobs(m.jobs.value)) else None)
  }

  /** The PATCH body as sent. */
  function PatchBody(m: BridgeResourceModel): Json
  {
    EncodeUpdateRequest(BuildUpdateRequest(m))
  }

  // ---------------------------------------------------------------------------
  // Properties of the PATCH body, stated on the JSON the server receives

  // The object each nested block becomes, on its own.

  lemma TargetUsageSends(t: TargetUsageModel)
    ensures Lookup(EncodeTargetUsage(BuildTargetUsage(t)), LowKey)
         == (if t.low.Null? then None else Some(JInt(ValueInt64(t.low) as int)))
    ensures Lookup(EncodeTargetUsage(BuildTargetUsage(t)), HighKey)
         == (if t.high.Null? then None else Some(JInt(ValueInt64(t.high) as int)))
  {
  }

  lemma TunnelCreationSends(c: TunnelCreationJobModel)
    ensures Lookup(EncodeTunnelCreation(BuildTunnelCreation(c)), IntervalMinutesKey)
         == (if c.intervalMinutes.Null? then None else Some(JInt(ValueInt64(c.intervalMinutes) as int)))
  {
  }

  lemma TunnelClosingSends(c: TunnelClosingJobModel)
    ensures Lookup(EncodeTunnelClosing(BuildTunnelClosing(c)), CronExprKey)
         == (if c.cronExpr.Known? && c.cronExpr.value != "" then Some(JString(c.cronExpr.value)) else None)
    ensures Lookup(EncodeTunnelClosing(BuildTunnelClosing(c)), AllowCloseUsedTunnelsKey)
         == (if c.allowCloseUsedTunnels.Null? then None else Some(JBool(ValueBool(c.allowCloseUsedTunnels))))
  {
  }

  lemma JobsSends(jobs: JobsModel)
    ensures Lookup(EncodeJobs(BuildJobs(jobs)), TunnelCreationKey)
         == (if jobs.tunnelCreation.Some? then Some(EncodeTunnelCreation(BuildTunnelCreation(jobs.tunnelCreation.value))) else None)
    ensures Lookup(EncodeJobs(BuildJobs(jobs)), TunnelClosingKey)
         == (if jobs.tunnelClosing.Some? then Some(EncodeTunnelClosing(BuildTunnelClosing(jobs.tunnelClosing.value))) else None)
  {
  }

  lemma ProxySends(p: ProxyModel)
    ensures Lookup(EncodeProxy(BuildProxy(p)), EnabledKey)
         == (if p.enabled.Null? then None else Some(JBool(ValueBool(p.enabled))))
    ensures Lookup(EncodeProxy(BuildProxy(p)), CacheExpirationSecsKey)
         == (if p.cacheExpirationSecs.Null? then None else Some(JInt(ValueInt64(p.cacheExpirationSecs) as int)))
    ensures Lookup(EncodeProxy(BuildProxy(p)), ProxyKeyKey)
         == (if p.key.Known? && p.key.value != "" then Some(JString(p.key.value)) else None)
    ensures Lookup(EncodeProxy(BuildProxy(p)), SchemeOverrideKey)
         == (if p.schemeOverride.Known? && p.schemeOverride.value != "" then Some(JString(p.schemeOverride.value)) else None)
  {
  }

  lemma RemoteSends(rm: RemoteModel)
    ensures Lookup(EncodeRemote(BuildRemote(rm)), UrlKey)
         == (if rm.url.Known? && rm.url.value != "" then Some(JString(rm.url.value)) else None)
    ensures Lookup(EncodeRemote(BuildRemote(rm)), InsecureKey)
         == (if rm.insecure.Null? then None else Some(JBool(ValueBool(rm.insecure))))
    ensures Lookup(EncodeRemote(BuildRemote(rm)), TokenKey) == None
    ensures Lookup(EncodeRemote(BuildRemote(rm)), ProxyKey)
         == (if rm.proxy.Some? then Some(EncodeProxy(BuildProxy(rm.proxy.value))) else None)
  {
  }

  lemma LocalSends(l: LocalModel)
    ensures Lookup(EncodeLocal(BuildLocal(l)), UrlKey)
         == (if l.url.Known? && l.url.value != "" then Some(JString(l.url.value)) else None)
    ensures Lookup(EncodeLocal(BuildLocal(l)), DialTimeoutSecsKey) == None
    ensures Lookup(EncodeLocal(BuildLocal(l)), AnonymousEndpointsKey)
         == (if AnonymousEndpoints(l.anonymousEndpoints) == [] then None
             else Some(JStringArray(AnonymousEndpoints(l.anonymousEndpoints))))
  {
  }

  /** The top-level members of the PATCH body: the four groups are sent iff
      their block is present, the tunnel counts iff known and non-zero. */
  lemma PatchMembers(m: BridgeResourceModel)
    ensures Lookup(PatchBody(m), RemoteKey)
         == (if m.remote.Some? then Some(EncodeRemote(BuildRemote(m.remote.value))) else None)
    ensures Lookup(PatchBody(m), LocalKey)
         == (if m.local.Some? then Some(EncodeLocal(BuildLocal(m.local.value))) else None)
    ensures Lookup(PatchBody(m), TargetUsageKey)
         == (if m.targetUsage.Some? then Some(EncodeTargetUsage(BuildTargetUsage(m.targetUsage.value))) else None)
    ensures Lookup(PatchBody(m), JobsKey)
         == (if m.jobs.Some? then Some(EncodeJobs(BuildJobs(m.jobs.value))) else None)
    ensures Lookup(PatchBody(m), MinTunnelsKey)
         == (if m.minTunnels.Known? && m.minTunnels.value != 0 then Some(JInt(m.minTunnels.value as int)) else None)
    ensures Lookup(PatchBody(m), MaxTunnelsKey)
         == (if m.maxTunnels.Known? && m.maxTunnels.value != 0 then Some(JInt(m.maxTunnels.value as int)) else None)
  {
    var req := BuildUpdateRequest(m);
    assert Lookup(PatchBody(m), RemoteKey) == UpdateMember(req, RemoteKey);
    assert Lookup(PatchBody(m), LocalKey) == UpdateMember(req, LocalKey);
    assert Lookup(PatchBody(m), TargetUsageKey) == UpdateMember(req, TargetUsageKey);
    assert Lookup(PatchBody(m), JobsKey) == UpdateMember(req, JobsKey);
    assert Lookup(PatchBody(m), MinTunnelsKey) == UpdateMember(req, MinTunnelsKey);
    assert Lookup(PatchBody(m), MaxTunnelsKey) == UpdateMember(req, MaxTunnelsKey);
  }

  // Each rule of buildUpdateRequest, stated on the path the server reads.

  /** `min_tunnels` and `max_tunnels` are sent iff known and non-zero, with
      their value: an explicit 0 in the configuration is not sent. */
  lemma PatchTunnelCounts(m: BridgeResourceModel)
    ensures At(PatchBody(m), [MinTunnelsKey])
         == (if m.minTunnels.Known? && m.minTunnels.value != 0 then Some(JInt(m.minTunnels.value as int)) else None)
    ensures At(PatchBody(m), [MaxTunnelsKey])
         == (if m.maxTunnels.Known? && m.maxTunnels.value != 0 then Some(JInt(m.maxTunnels.value as int)) else None)
  {
    PatchMembers(m);
  }

  /** An explicit zero tunnel count is dropped, unlike a zero target usage. */
  lemma PatchDropsExplicitZero(m: BridgeResourceModel)
    requires m.minTunnels == Known(0)
    requires m.targetUsage.Some? && m.targetUsage.value.low == Known(0)
    ensures At(PatchBody(m), [MinTunnelsKey]) == None
    ensures At(PatchBody(m), [TargetUsageKey, LowKey]) == Some(JInt(0))
  {
    PatchTunnelCounts(m);
    PatchTargetUsage(m);
  }

  /** target_usage is sent iff present; `low` and `high` iff not null, 0 kept. */
  lemma PatchTargetUsage(m: BridgeResourceModel)
    ensures At(PatchBody(m), [TargetUsageKey]).Some? <==> m.targetUsage.Some?
    ensures m.targetUsage.Some? ==>
      var t := m.targetUsage.value;
      && At(PatchBody(m), [TargetUsageKey, LowKey]) == (if t.low.Null? then None else Some(JInt(ValueInt64(t.low) as int)))
      && At(PatchBody(m), [TargetUsageKey, HighKey]) == (if t.high.Null? then None else Some(JInt(ValueInt64(t.high) as int)))
  {
    PatchMembers(m);
    if m.targetUsage.Some? {
      TargetUsageSends(m.targetUsage.value);
      AtPair(PatchBody(m), TargetUsageKey, LowKey);
      AtPair(PatchBody(m), TargetUsageKey, HighKey);
    }
  }

  /** jobs is sent iff present, and so is each of its two sub-groups. */
  lemma PatchJobs(m: BridgeResourceModel)
    ensures At(PatchBody(m), [JobsKey]).Some? <==> m.jobs.Some?
    ensures m.jobs.Some? ==>
      && (At(PatchBody(m), [JobsKey, TunnelCreationKey]).Some? <==> m.jobs.value.tunnelCreation.Some?)
      && (At(PatchBody(m), [JobsKey, TunnelClosingKey]).Some? <==> m.jobs.value.tunnelClosing.Some?)
  {
    PatchMembers(m);
    if m.jobs.Some? {
      JobsSends(m.jobs.value);
      AtPair(PatchBody(m), JobsKey, TunnelCreationKey);
      AtPair(PatchBody(m), JobsKey, TunnelClosingKey);
    }
  }

  /** jobs.tunnel_creation.interval_minutes is sent iff not null. */
  lemma PatchTunnelCreation(m: BridgeResourceModel)
    requires m.jobs.Some? && m.jobs.value.tunnelCreation.Some?
    ensures
      var c := m.jobs.value.tunnelCreation.value;
      At(PatchBody(m), [JobsKey, TunnelCreationKey, IntervalMinutesKey])
        == (if c.intervalMinutes.Null? then None else Some(JInt(ValueInt64(c.intervalMinutes) as int)))
  {
    var jobs := EncodeJobs(BuildJobs(m.jobs.value));
    PatchMembers(m);
    JobsSends(m.jobs.value);
    TunnelCreationSends(m.jobs.value.tunnelCreation.value);
    AtTriple(PatchBody(m), JobsKey, TunnelCreationKey, IntervalMinutesKey);
    AtPair(jobs, TunnelCreationKey, IntervalMinutesKey);
  }

  /** jobs.tunnel_closing: `cron_expr` iff non-empty, the flag iff not null. */
  lemma PatchTunnelClosing(m: BridgeResourceModel)
    requires m.jobs.Some? && m.jobs.value.tunnelClosing.Some?
    ensures
      var c := m.jobs.value.tunnelClosing.value;
      && At(PatchBody(m), [JobsKey, TunnelClosingKey, CronExprKey])
         == (if c.cronExpr.Known? && c.cronExpr.value != "" then Some(JString(c.cronExpr.value)) else None)
      && At(PatchBody(m), [JobsKey, TunnelClosingKey, AllowCloseUsedTunnelsKey])
         == (if c.allowCloseUsedTunnels.Null? then None else Some(JBool(ValueBool(c.allowCloseUsedTunnels))))
  {
    var jobs := EncodeJobs(BuildJobs(m.jobs.value));
    PatchMembers(m);
    JobsSends(m.jobs.value);
    TunnelClosingSends(m.jobs.value.tunnelClosing.value);
    AtTriple(PatchBody(m), JobsKey, TunnelClosingKey, CronExprKey);
    AtTriple(PatchBody(m), JobsKey, TunnelClosingKey, AllowCloseUsedTunnelsKey);
    AtPair(jobs, TunnelClosingKey, CronExprKey);
    AtPair(jobs, TunnelClosingKey, AllowCloseUsedTunnelsKey);
  }

  /** The remote group: the url is copied, `insecure` is sent when not null,
      the token is never sent, the proxy group is sent iff present. */
  lemma PatchRemote(m: BridgeResourceModel)
    ensures At(PatchBody(m), [RemoteKey]).Some? <==> m.remote.Some?
    ensures m.remote.Some? ==>
      var rm := m.remote.value;
      && At(PatchBody(m), [RemoteKey, UrlKey])
         == (if rm.url.Known? && rm.url.value != "" then Some(JString(rm.url.value)) else None)
      && At(PatchBody(m), [RemoteKey, InsecureKey])
         == (if rm.insecure.Null? then None else Some(JBool(ValueBool(rm.insecure))))
      && At(PatchBody(m), [RemoteKey, TokenKey]) == None
      && (At(PatchBody(m), [RemoteKey, ProxyKey]).Some? <==> rm.proxy.Some?)
  {
    PatchMembers(m);
    if m.remote.Some? {
      RemoteSends(m.remote.value);
      AtPair(PatchBody(m), RemoteKey, UrlKey);
      AtPair(PatchBody(m), RemoteKey, InsecureKey);
      AtPair(PatchBody(m), RemoteKey, TokenKey);
      AtPair(PatchBody(m), RemoteKey, ProxyKey);
    }
  }

  /** remote.proxy: the flag and the expiry iff not null, `key` and
      `scheme_override` iff non-empty. */
  lemma PatchProxy(m: BridgeResourceModel)
    requires m.remote.Some? && m.remote.value.proxy.Some?
    ensures
      var p := m.remote.value.proxy.value;
      && At(PatchBody(m), [RemoteKey, ProxyKey, EnabledKey])
         == (if p.enabled.Null? then None else Some(JBool(ValueBool(p.enabled))))
      && At(PatchBody(m), [RemoteKey, ProxyKey, CacheExpirationSecsKey])
         == (if p.cacheExpirationSecs.Null? then None else Some(JInt(ValueInt64(p.cacheExpirationSecs) as int)))
      && At(PatchBody(m), [RemoteKey, ProxyKey, ProxyKeyKey])
         == (if p.key.Known? && p.key.value != "" then Some(JString(p.key.value)) else None)
      && At(PatchBody(m), [RemoteKey, ProxyKey, SchemeOverrideKey])
         == (if p.schemeOverride.Known? && p.schemeOverride.value != "" then Some(JString(p.schemeOverride.value)) else None)
  {
    var remote := EncodeRemote(BuildRemote(m.remote.value));
    PatchMembers(m);
    RemoteSends(m.remote.value);
    ProxySends(m.remote.value.proxy.value);
    AtTriple(PatchBody(m), RemoteKey, ProxyKey, EnabledKey);
    AtTriple(PatchBody(m), RemoteKey, ProxyKey, CacheExpirationSecsKey);
    AtTriple(PatchBody(m), RemoteKey, ProxyKey, ProxyKeyKey);
    AtTriple(PatchBody(m), RemoteKey, ProxyKey, SchemeOverrideKey);
    AtPair(remote, ProxyKey, EnabledKey);
    AtPair(remote, ProxyKey, CacheExpirationSecsKey);
    AtPair(remote, ProxyKey, ProxyKeyKey);
    AtPair(remote, ProxyKey, SchemeOverrideKey);
  }

  /** The local group: the url is copied, the endpoints are sent iff the list
      is known, not empty and has only known elements, the dial timeout is
      never sent. */
  lemma PatchLocal(m: BridgeResourceModel)
    ensures At(PatchBody(m), [LocalKey]).Some? <==> m.local.Some?
    ensures m.local.Some? ==>
      var l := m.local.value;
      && At(PatchBody(m), [LocalKey, UrlKey])
         == (if l.url.Known? && l.url.value != "" then Some(JString(l.url.value)) else None)
      && At(PatchBody(m), [LocalKey, DialTimeoutSecsKey]) == None
      && (At(PatchBody(m), [LocalKey, AnonymousEndpointsKey]).Some?
          <==> l.anonymousEndpoints.Known? && l.anonymousEndpoints.value != []
               && forall i | 0 <= i < |l.anonymousEndpoints.value| :: l.anonymousEndpoints.value[i].Known?)
      && (At(PatchBody(m), [LocalKey, AnonymousEndpointsKey]).Some? ==>
            At(PatchBody(m), [LocalKey, AnonymousEndpointsKey]).value.JStringArray?
            && var sent := At(PatchBody(m), [LocalKey, AnonymousEndpointsKey]).value.items;
            |sent| == |l.anonymousEndpoints.value|
            && forall i | 0 <= i < |sent| :: sent[i] == l.anonymousEndpoints.value[i].value)
  {
    PatchMembers(m);
    if m.local.Some? {
      LocalSends(m.local.value);
      AtPair(PatchBody(m), LocalKey, UrlKey);
      AtPair(PatchBody(m), LocalKey, DialTimeoutSecsKey);
      AtPair(PatchBody(m), LocalKey, AnonymousEndpointsKey);
    }
  }

  /** The identity attributes (id, bridge_id, pairing_token, created_at) play
      no part in the PATCH body. */
  lemma PatchIgnoresIdentity(m: BridgeResourceModel, id: Value<string>, bridgeId: Value<string>,
                             pairingToken: Value<string>, createdAt: Value<string>)
    ensures PatchBody(m.(id := id, bridgeId := bridgeId, pairingToken := pairingToken, createdAt := createdAt))
         == PatchBody(m)
  {
  }

  // ---------------------------------------------------------------------------
  // No secret and no identity in the PATCH body

  lemma ProxyAvoidsForbidden(p: ProxyApiModel)
    ensures Avoids(EncodeProxy(p), PatchForbidden)
  {
    var j := EncodeProxy(p);
    forall k | k in j.members
      ensures k !in PatchForbidden && !j.members[k].JObject?
    {
      assert Lookup(j, k) == ProxyMember(p, k);
    }
    FlatAvoids(j, PatchForbidden);
  }

  lemma RemoteAvoidsForbidden(r: RemoteApiModel)
    requires r.token == ""
    ensures Avoids(EncodeRemote(r), PatchForbidden)
  {
    var j := EncodeRemote(r);
    forall k | k in j.members
      ensures k !in PatchForbidden && Avoids(j.members[k], PatchForbidden)
    {
      assert Lookup(j, k) == RemoteMember(r, k);
      if k == ProxyKey {
        ProxyAvoidsForbidden(r.proxy.value);
      }
    }
  }

  lemma LocalAvoidsForbidden(l: LocalApiModel)
    requires l.dialTimeoutSecs.None?
    ensures Avoids(EncodeLocal(l), PatchForbidden)
  {
    var j := EncodeLocal(l);
    forall k | k in j.members
      ensures k !in PatchForbidden && !j.members[k].JObject?
    {
      assert Lookup(j, k) == LocalMember(l, k);
    }
    FlatAvoids(j, PatchForbidden);
  }

  lemma TargetUsageAvoidsForbidden(t: TargetUsageApiModel)
    ensures Avoids(EncodeTargetUsage(t), PatchForbidden)
  {
    var j := EncodeTargetUsage(t);
    forall k | k in j.members
      ensures k !in PatchForbidden && !j.members[k].JObject?
    {
      assert Lookup(j, k) == TargetUsageMember(t, k);
    }
    FlatAvoids(j, PatchForbidden);
  }

  lemma JobsAvoidForbidden(jobs: JobsApiModel)
    ensures Avoids(EncodeJobs(jobs), PatchForbidden)
  {
    var j := EncodeJobs(jobs);
    forall k | k in j.members
      ensures k !in PatchForbidden && Avoids(j.members[k], PatchForbidden)
    {
      assert Lookup(j, k) == JobsMember(jobs, k);
      if k == TunnelCreationKey {
        var c := EncodeTunnelCreation(jobs.tunnelCreation.value);
        forall k' | k' in c.members
          ensures k' !in PatchForbidden && !c.members[k'].JObject?
        {
          assert Lookup(c, k') == TunnelCreationMember(jobs.tunnelCreation.value, k');
        }
        FlatAvoids(c, PatchForbidden);
      } else {
        var c := EncodeTunnelClosing(jobs.tunnelClosing.value);
        forall k' | k' in c.members
          ensures k' !in PatchForbidden && !c.members[k'].JObject?
        {
          assert Lookup(c, k') == TunnelClosingMember(jobs.tunnelClosing.value, k');
        }
        FlatAvoids(c, PatchForbidden);
      }
    }
  }

  lemma UpdateRequestAvoidsForbidden(req: UpdateRequestModel)
    requires req.remote.Some? ==> req.remote.value.token == ""
    requires req.local.Some? ==> req.local.value.dialTimeoutSecs.None?
    ensures Avoids(EncodeUpdateRequest(req), PatchForbidden)
  {
    var j := EncodeUpdateRequest(req);
    forall k | k in j.members
      ensures k !in PatchForbidden && Avoids(j.members[k], PatchForbidden)
    {
      assert Lookup(j, k) == UpdateMember(req, k);
      match k
      case RemoteKey => RemoteAvoidsForbidden(req.remote.value);
      case LocalKey => LocalAvoidsForbidden(req.local.value);
      case TargetUsageKey => TargetUsageAvoidsForbidden(req.targetUsage.value);
      case JobsKey => JobsAvoidForbidden(req.jobs.value);
      case _ =>
    }
  }

  /** The PATCH body carries, at no depth, the pairing token, a remote token,
      a dial timeout or a bridge id. */
  lemma PatchOmitsSecretsAndIdentity(m: BridgeResourceModel)
    ensures !Mentions(PatchBody(m), PairingTokenKey)
    ensures !Mentions(PatchBody(m), TokenKey)
    ensures !Mentions(PatchBody(m), DialTimeoutSecsKey)
    ensures !Mentions(PatchBody(m), BridgeIdKey) && !Mentions(PatchBody(m), BridgeIdUpperKey)
  {
    UpdateRequestAvoidsForbidden(BuildUpdateRequest(m));
    AvoidedNotMentioned(PatchBody(m), PatchForbidden, PairingTokenKey);
    AvoidedNotMentioned(PatchBody(m), PatchForbidden, TokenKey);
    AvoidedNotMentioned(PatchBody(m), PatchForbidden, DialTimeoutSecsKey);
    AvoidedNotMentioned(PatchBody(m), PatchForbidden, BridgeIdKey);
    AvoidedNotMentioned(PatchBody(m), PatchForbidden, BridgeIdUpperKey);
  }

  // ---------------------------------------------------------------------------
  // The POST body of Create

  /** The schema makes `remote` and `local` required, so the plan always has
      both blocks. Every member is sent, empty or not. */
  function BuildCreateRequest(m: BridgeResourceModel): (r: CreateRequestModel)
    requires m.remote.Some? && m.local.Some?
    ensures EncodeCreateRequest(r).JObject?
    ensures EncodeCreateRequest(r).members.Keys == {BridgeIdKey, RemoteKey, LocalKey, PairingTokenKey}
    ensures Lookup(EncodeCreateRequest(r), BridgeIdKey) == Some(JString(ValueString(m.bridgeId)))
    ensures Lookup(EncodeCreateRequest(r), RemoteKey) == Some(JString(ValueString(m.remote.value.url)))
    ensures Lookup(EncodeCreateRequest(r), LocalKey) == Some(JString(ValueString(m.local.value.url)))
    ensures Lookup(EncodeCreateRequest(r), PairingTokenKey) == Some(JString(ValueString(m.pairingToken)))
  {
    CreateRequestModel(ValueString(m.bridgeId), ValueString(m.remote.value.url), ValueString(m.local.value.url),
                       ValueString(m.pairingToken))
  }
}
