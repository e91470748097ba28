/**
 * Account resolution: the two configuration shapes (one flat account, or a
 * map of named accounts under several possible roots), numeric defaulting and
 * the lower bounds applied to the tuning knobs.
 */
module Accounts {
  import opened Common
  import opened Js

  const PluginId: string := "sensusai_chat"
  const ChannelId: string := "openclaw-connect"

  const DefaultHeartbeatMs: real := 20000.0
  const DefaultReconnectMs: real := 2000.0
  const DefaultReconnectInitialMs: real := 2000.0
  const DefaultReconnectMaxMs: real := 30000.0
  const DefaultReconnectFactor: real := 1.8
  const DefaultReconnectJitter: real := 0.25
  const DefaultMaxQueueSize: real := 500.0
  const DefaultIdleTimeoutMs: real := 120000.0
  const DefaultConnectProbeTimeoutMs: real := 2500.0
  const DefaultWsPingMs: real := 25000.0

  /** The resolved, defaulted descriptor of one account. The four strings are passed through as given. */
  datatype Descriptor = Descriptor(
    id: string,
    configured: bool,
    enabled: bool,
    cloudUrl: Value,
    channelId: Value,
    deviceId: Value,
    deviceSecret: Value,
    heartbeatMs: real,
    reconnectMs: real,
    reconnectInitialMs: real,
    reconnectMaxMs: real,
    reconnectFactor: real,
    reconnectJitter: real,
    maxQueueSize: int,
    idleTimeoutMs: int,
    connectProbeTimeoutMs: int,
    wsPingMs: int)

  /** The fields the flat (single-account) shape copies into its one `default` account. */
  const FlatKeys: set<string> := {
    "enabled", "cloudUrl", "channelId", "deviceId", "deviceSecret", "heartbeatMs",
    "reconnectMs", "reconnectInitialMs", "reconnectMaxMs", "reconnectFactor",
    "reconnectJitter", "maxQueueSize", "idleTimeoutMs", "connectProbeTimeoutMs", "wsPingMs"}

  /** The configuration is in the flat shape: it carries credentials at its top level. */
  predicate IsFlat(config: Value)
  {
    Truthy(Get(config, "cloudUrl")) || Truthy(Get(config, "deviceId")) || Truthy(Get(config, "deviceSecret"))
  }

  /** The object literal the flat shape builds: the `FlatKeys` fields of `config`, nothing else. */
  function FlatAccount(config: Value): (r: Value)
    ensures r.Obj? && r.fields.Keys == FlatKeys
    ensures forall k | k in FlatKeys :: Get(r, k) == Get(config, k)
  {
    Obj(map k | k in FlatKeys :: Get(config, k))
  }

  /** The accounts a channel section names: its `accounts` map, or the section itself as `default`. */
  function SectionAccounts(section: Value): Value
  {
    if !Truthy(Get(section, "accounts")) then Obj(map["default" := section])
    else Get(section, "accounts")
  }

  /** `getAccounts(config)`: the map of account id to raw account. */
  function GetAccounts(config: Value): (r: Value)
    ensures Truthy(r) || r == Obj(map[])
    ensures !Truthy(config) ==> r == Obj(map[])
  {
    if !Truthy(config) then Obj(map[])
    else if IsFlat(config) then Obj(map["default" := FlatAccount(config)])
    else if Truthy(Get(config, "accounts")) then Get(config, "accounts")
    else
      var channels := Get(config, "channels");
      if Truthy(channels) && Truthy(Get(channels, PluginId)) then SectionAccounts(Get(channels, PluginId))
      else if Truthy(channels) && Truthy(Get(channels, ChannelId)) then SectionAccounts(Get(channels, ChannelId))
      else Obj(map[])
  }

  /** `pickNumber(value, fallback)`: the number `value` converts to, or `fallback` when that is not finite. */
  function PickNumber(v: Value, fallback: real): (r: real)
    ensures ToNumber(v).None? ==> r == fallback
    ensures ToNumber(v).Some? ==> r == ToNumber(v).value
  {
    match ToNumber(v)
    case None => fallback
    case Some(n) => n
  }

  function Floor(x: real): int { x.Floor }

  /** The descriptor of a present (truthy) raw account: the object literal `resolveAccount` returns. */
  function Resolve(account: Value, id: string): (d: Descriptor)
    ensures d.id == id
    ensures d.configured <==>
      Truthy(Get(account, "cloudUrl")) && Truthy(Get(account, "deviceId")) && Truthy(Get(account, "deviceSecret"))
    ensures d.enabled <==> Get(account, "enabled") != Bool(false)
    ensures Truthy(d.channelId)
    ensures d.maxQueueSize >= 1 && d.idleTimeoutMs >= 30000
    ensures d.connectProbeTimeoutMs >= 500 && d.wsPingMs >= 10000
  {
    var reconnectMs := PickNumber(Get(account, "reconnectMs"), DefaultReconnectMs);
    Descriptor(
      id := id,
      configured := Truthy(Get(account, "cloudUrl")) && Truthy(Get(account, "deviceId")) && Truthy(Get(account, "deviceSecret")),
      enabled := Get(account, "enabled") != Bool(false),
      cloudUrl := Get(account, "cloudUrl"),
      channelId := Or(Get(account, "channelId"), Str(ChannelId)),
      deviceId := Get(account, "deviceId"),
      deviceSecret := Get(account, "deviceSecret"),
      heartbeatMs := PickNumber(Get(account, "heartbeatMs"), DefaultHeartbeatMs),
      reconnectMs := reconnectMs,
      reconnectInitialMs := PickNumber(Get(account, "reconnectInitialMs"),
                                       if reconnectMs != 0.0 then reconnectMs else DefaultReconnectInitialMs),
      reconnectMaxMs := PickNumber(Get(account, "reconnectMaxMs"), DefaultReconnectMaxMs),
      reconnectFactor := PickNumber(Get(account, "reconnectFactor"), DefaultReconnectFactor),
      reconnectJitter := PickNumber(Get(account, "reconnectJitter"), DefaultReconnectJitter),
      maxQueueSize := Max(1, Floor(PickNumber(Get(account, "maxQueueSize"), DefaultMaxQueueSize))),
      idleTimeoutMs := Max(30000, Floor(PickNumber(Get(account, "idleTimeoutMs"), DefaultIdleTimeoutMs))),
      connectProbeTimeoutMs := Max(500, Floor(PickNumber(Get(account, "connectProbeTimeoutMs"), DefaultConnectProbeTimeoutMs))),
      wsPingMs := Max(10000, Floor(PickNumber(Get(account, "wsPingMs"), DefaultWsPingMs))))
  }

  /** `resolveAccount(config, accountId)`: `None` (the source's `null`) for a missing or falsy account. */
  function ResolveAccount(config: Value, id: string): (r: Option<Descriptor>)
    ensures r.None? <==> !Truthy(Get(GetAccounts(config), id))
    ensures r.Some? ==> r.value == Resolve(Get(GetAccounts(config), id), id)
  {
    var account := Get(GetAccounts(config), id);
    if !Truthy(account) then None else Some(Resolve(account, id))
  }

  /** `listAccountIds(config)`: the keys of the accounts map (as a set; the source's array keeps insertion order). */
  function ListAccountIds(config: Value): (r: set<string>)
    ensures forall id | id !in r :: Get(GetAccounts(config), id) == Undefined
    ensures !Truthy(config) ==> r == {}
    ensures IsFlat(config) ==> r == {"default"}
  {
    var accounts := GetAccounts(config);
    if accounts.Obj? then accounts.fields.Keys else {}
  }

  /** An id resolves exactly when it is listed and its raw account is truthy. */
  lemma ResolvableIffListed(config: Value, id: string)
    ensures ResolveAccount(config, id).Some? <==>
      id in ListAccountIds(config) && Truthy(Get(GetAccounts(config), id))
  {
  }

  /** A descriptor written back as a raw account object, every knob set explicitly. */
  function Encode(d: Descriptor): Value
  {
    Obj(map[
      "enabled" := Bool(d.enabled),
      "cloudUrl" := d.cloudUrl,
      "channelId" := d.channelId,
      "deviceId" := d.deviceId,
      "deviceSecret" := d.deviceSecret,
      "heartbeatMs" := Num(d.heartbeatMs),
      "reconnectMs" := Num(d.reconnectMs),
      "reconnectInitialMs" := Num(d.reconnectInitialMs),
      "reconnectMaxMs" := Num(d.reconnectMaxMs),
      "reconnectFactor" := Num(d.reconnectFactor),
      "reconnectJitter" := Num(d.reconnectJitter),
      "maxQueueSize" := Num(d.maxQueueSize as real),
      "idleTimeoutMs" := Num(d.idleTimeoutMs as real),
      "connectProbeTimeoutMs" := Num(d.connectProbeTimeoutMs as real),
      "wsPingMs" := Num(d.wsPingMs as real)])
  }

  /** The connection fields of `Encode(d)`. */
  lemma EncodeConnection(d: Descriptor)
    ensures var e := Encode(d);
      && Get(e, "enabled") == Bool(d.enabled)
      && Get(e, "cloudUrl") == d.cloudUrl
      && Get(e, "channelId") == d.channelId
  {
  }

  /** The credential fields of `Encode(d)`. */
  lemma EncodeCredentials(d: Descriptor)
    ensures var e := Encode(d);
      && Get(e, "deviceId") == d.deviceId
      && Get(e, "deviceSecret") == d.deviceSecret
  {
  }

  /** The timing fields of `Encode(d)`. */
  lemma EncodeTimings(d: Descriptor)
    ensures var e := Encode(d);
      && Get(e, "heartbeatMs") == Num(d.heartbeatMs)
      && Get(e, "reconnectMs") == Num(d.reconnectMs)
      && Get(e, "reconnectInitialMs") == Num(d.reconnectInitialMs)
      && Get(e, "reconnectMaxMs") == Num(d.reconnectMaxMs)
      && Get(e, "reconnectFactor") == Num(d.reconnectFactor)
  {
  }

  /** The bounded fields of `Encode(d)`. */
  lemma EncodeBounds(d: Descriptor)
    ensures var e := Encode(d);
      && Get(e, "reconnectJitter") == Num(d.reconnectJitter)
      && Get(e, "maxQueueSize") == Num(d.maxQueueSize as real)
      && Get(e, "idleTimeoutMs") == Num(d.idleTimeoutMs as real)
      && Get(e, "connectProbeTimeoutMs") == Num(d.connectProbeTimeoutMs as real)
      && Get(e, "wsPingMs") == Num(d.wsPingMs as real)
  {
  }

  /** Resolution is a normalisation: resolving an already resolved account again changes nothing. */
  lemma ResolveIsIdempotent(account: Value, id: string)
    ensures Resolve(Encode(Resolve(account, id)), id) == Resolve(account, id)
  {
    var d := Resolve(account, id);
    EncodeConnection(d);
    EncodeCredentials(d);
    EncodeTimings(d);
    EncodeBounds(d);
  }

  /** An account that sets nothing gets the documented defaults and is not configured. */
  lemma EmptyAccountGetsDefaults(id: string)
    ensures Resolve(Obj(map[]), id) == Descriptor(
      id, false, true, Undefined, Str(ChannelId), Undefined, Undefined,
      20000.0, 2000.0, 2000.0, 30000.0, 1.8, 0.25, 500, 120000, 2500, 25000)
  {
  }

  /** A finite knob is floored and then raised to its lower bound; a non-finite one takes the default. */
  lemma {:induction false} QueueSizeNormalisation(account: Value, id: string)
    ensures var v := Get(account, "maxQueueSize");
      Resolve(account, id).maxQueueSize ==
        if ToNumber(v).None? then 500 else Max(1, ToNumber(v).value.Floor)
  {
  }

  /** `reconnectInitialMs` defaults to a non-zero `reconnectMs`, and to 2000 when that is zero. */
  lemma InitialDelayFallsBackToReconnectMs(account: Value, id: string)
    requires ToNumber(Get(account, "reconnectInitialMs")).None?
    ensures var d := Resolve(account, id);
      d.reconnectInitialMs == if d.reconnectMs != 0.0 then d.reconnectMs else 2000.0
  {
  }

  /** The flat shape wins over every other shape and yields exactly one account, `default`. */
  lemma FlatShapeWins(config: Value)
    requires IsFlat(config)
    ensures ListAccountIds(config) == {"default"}
    ensures var accounts := GetAccounts(config);
      accounts.Obj? && accounts.fields.Keys == {"default"} &&
      forall k | k in FlatKeys :: Get(Get(accounts, "default"), k) == Get(config, k)
  {
  }

  /**
   * Without top-level credentials or `accounts`, a `channels` section under the
   * plugin id is used before one under the channel id.
   */
  lemma PluginSectionBeforeChannelSection(config: Value)
    requires Truthy(config) && !IsFlat(config) && !Truthy(Get(config, "accounts"))
    requires Truthy(Get(config, "channels")) && Truthy(Get(Get(config, "channels"), PluginId))
    ensures GetAccounts(config) == SectionAccounts(Get(Get(config, "channels"), PluginId))
  {
  }

  /** A falsy configuration has no accounts. */
  lemma FalsyConfigHasNoAccounts(config: Value)
    requires !Truthy(config)
    ensures GetAccounts(config) == Obj(map[]) && ListAccountIds(config) == {}
  {
  }

  /** Without top-level credentials, a truthy `accounts` root is the accounts map, whatever `channels` holds. */
  lemma AccountsRootBeforeChannels(config: Value)
    requires Truthy(config) && !IsFlat(config) && Truthy(Get(config, "accounts"))
    ensures GetAccounts(config) == Get(config, "accounts")
  {
  }

  /** The section under the channel id is used when the one under the plugin id is missing or falsy. */
  lemma ChannelSectionWithoutPluginSection(config: Value)
    requires Truthy(config) && !IsFlat(config) && !Truthy(Get(config, "accounts"))
    requires !Truthy(Get(Get(config, "channels"), PluginId)) && Truthy(Get(Get(config, "channels"), ChannelId))
    ensures GetAccounts(config) == SectionAccounts(Get(Get(config, "channels"), ChannelId))
  {
  }

  /** A section without a truthy `accounts` map is itself the one account `default`; otherwise its map is used. */
  lemma SectionIsDefaultAccount(section: Value)
    ensures !Truthy(Get(section, "accounts")) ==> SectionAccounts(section) == Obj(map["default" := section])
    ensures Truthy(Get(section, "accounts")) ==> SectionAccounts(section) == Get(section, "accounts")
  {
  }

  /** With no credentials, no `accounts` root and neither channel section, there are no accounts. */
  lemma NoSourceNoAccounts(config: Value)
    requires !IsFlat(config) && !Truthy(Get(config, "accounts"))
    requires !Truthy(Get(Get(config, "channels"), PluginId)) && !Truthy(Get(Get(config, "channels"), ChannelId))
    ensures GetAccounts(config) == Obj(map[]) && ListAccountIds(config) == {}
  {
  }
}
