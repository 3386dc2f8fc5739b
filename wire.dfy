/** The JSON a request body is encoded to, reduced to what the resources decide:
    which keys each object carries, in which order, and with which value.
    Text formatting and escaping are not part of this model. */
module Wire {
  import opened Framework

  /** The object keys that occur in the bodies the resources build. */
  datatype Key =
    | BridgeIdKey | BridgeIdUpperKey | RemoteKey | LocalKey | PairingTokenKey
    | MinTunnelsKey | MaxTunnelsKey | TargetUsageKey | JobsKey
    | UrlKey | TokenKey | InsecureKey | ProxyKey
    | EnabledKey | CacheExpirationSecsKey | ProxyKeyKey | SchemeOverrideKey
    | AnonymousEndpointsKey | DialTimeoutSecsKey
    | LowKey | HighKey
    | TunnelCreationKey | IntervalMinutesKey | TunnelClosingKey | CronExprKey | AllowCloseUsedTunnelsKey
  {
    /** The key as it is written in the JSON text (the `json:` struct tag). */
    function Name(): string
    {
      match this
      case BridgeIdKey => "bridge_id"
      case BridgeIdUpperKey => "bridge_ID"
      case RemoteKey => "remote"
      case LocalKey => "local"
      case PairingTokenKey => "pairing_token"
      case MinTunnelsKey => "min_tunnels"
      case MaxTunnelsKey => "max_tunnels"
      case TargetUsageKey => "target_usage"
      case JobsKey => "jobs"
      case UrlKey => "url"
      case TokenKey => "token"
      case InsecureKey => "insecure"
      case ProxyKey => "proxy"
      case EnabledKey => "enabled"
      case CacheExpirationSecsKey => "cache_expiration_secs"
      case ProxyKeyKey => "key"
      case SchemeOverrideKey => "scheme_override"
      case AnonymousEndpointsKey => "anonymous_endpoints"
      case DialTimeoutSecsKey => "dial_timeout_secs"
      case LowKey => "low"
      case HighKey => "high"
      case TunnelCreationKey => "tunnel_creation"
      case IntervalMinutesKey => "interval_minutes"
      case TunnelClosingKey => "tunnel_closing"
      case CronExprKey => "cron_expr"
      case AllowCloseUsedTunnelsKey => "allow_close_used_tunnels"
    }
  }

  /** A JSON value. An object is the map from the keys it carries to their
      values; Go writes the keys in struct-field order, which is not part of
      this model. */
  datatype Json =
    | JBool(b: bool)
    | JInt(n: int)
    | JString(s: string)
    | JStringArray(items: seq<string>)
    | JObject(members: map<Key, Json>)

  /** The member `key` of an object, if the object carries it. */
  function Lookup(j: Json, key: Key): Option<Json>
  {
    if j.JObject? && key in j.members then Some(j.members[key]) else None
  }

  /** The value reached by following a path of keys from `j`. */
  function At(j: Json, path: seq<Key>): (r: Option<Json>)
    ensures |path| == 1 ==> r == Lookup(j, path[0])
    decreases |path|
  {
    if path == [] then Some(j)
    else match Lookup(j, path[0])
      case None => None
      case Some(child) => At(child, path[1..])
  }

  /** Following two keys: the second is looked up in the first's value. */
  lemma AtPair(j: Json, a: Key, b: Key)
    ensures At(j, [a, b]) == (if Lookup(j, a).Some? then Lookup(Lookup(j, a).value, b) else None)
  {
    assert [a, b][1..] == [b];
  }

  /** Following three keys, one object at a time. */
  lemma AtTriple(j: Json, a: Key, b: Key, c: Key)
    ensures At(j, [a, b, c]) == (if Lookup(j, a).Some? then At(Lookup(j, a).value, [b, c]) else None)
  {
    assert [a, b, c][1..] == [b, c];
  }

  /** `key` is carried by some object, at any depth of `j`. */
  predicate Mentions(j: Json, key: Key)
  {
    j.JObject? && exists k | k in j.members :: k == key || Mentions(j.members[k], key)
  }

  /** No object inside `j`, at any depth, carries a key of `forbidden`. */
  predicate Avoids(j: Json, forbidden: set<Key>)
  {
    j.JObject? ==> forall k | k in j.members :: k !in forbidden && Avoids(j.members[k], forbidden)
  }

  /** An object whose members are all plain values avoids the keys it does
      not carry. */
  lemma FlatAvoids(j: Json, forbidden: set<Key>)
    requires j.JObject?
    requires forall k | k in j.members :: k !in forbidden && !j.members[k].JObject?
    ensures Avoids(j, forbidden)
  {
  }

  /** A body that avoids a set of keys mentions none of them. */
  lemma {:induction false} AvoidedNotMentioned(j: Json, forbidden: set<Key>, key: Key)
    requires Avoids(j, forbidden)
    requires key in forbidden
    ensures !Mentions(j, key)
  {
    if j.JObject? {
      forall k | k in j.members
        ensures k != key && !Mentions(j.members[k], key)
      {
        AvoidedNotMentioned(j.members[k], forbidden, key);
      }
    }
  }

  /** The member Go's encoder writes for a field with `omitempty`: none when
      the field is empty (`None`), the key and its value otherwise. */
  function Opt(key: Key, v: Option<Json>): (ms: map<Key, Json>)
    ensures key in ms <==> v.Some?
    ensures v.Some? ==> ms[key] == v.value
    ensures forall k | k in ms :: k == key
  {
    if v.Some? then map[key := v.value] else map[]
  }

  /** A string with `omitempty`: the empty string is left out. */
  function OmitEmptyString(s: string): (v: Option<Json>)
    ensures v.Some? <==> s != ""
    ensures v.Some? ==> v.value == JString(s)
  {
    if s == "" then None else Some(JString(s))
  }

  /** A `[]string` with `omitempty`: a nil or empty slice is left out. */
  function OmitEmptyList(items: seq<string>): (v: Option<Json>)
    ensures v.Some? <==> items != []
    ensures v.Some? ==> v.value == JStringArray(items)
  {
    if items == [] then None else Some(JStringArray(items))
  }
}
