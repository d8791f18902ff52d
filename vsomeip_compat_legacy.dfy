/** The older vsomeip configuration builder of the root `vsomeip_compat`
    crate, which the client uses. It differs from the newer crate in three
    ways: address and netmask always have a value (loopback defaults), a
    service carries no versions, and each service entry also writes its
    port under `unreliable`. The connection and addressing enums, the mode
    key and the logging section are identical in the two crates and are
    taken from the newer one here. */
module VsomeIpCompatLegacy {
  import opened Wrappers
  import opened SomeIpTypes
  import opened Json
  import VsomeIpCompat

  type ConnectionType = VsomeIpCompat.ConnectionType
  type AddressingMode = VsomeIpCompat.AddressingMode

  datatype ServiceConfig = ServiceConfig(id: ServiceId, connType: ConnectionType)

  datatype VsomeIpConfig = VsomeIpConfig(
    appName: string,
    appId: u16,
    services: seq<ServiceConfig>,
    addr: IpAddr,
    netmask: IpAddr,
    addrMode: AddressingMode,
    serviceDiscovery: bool,
    instanceId: InstanceId,
    routing: Option<string>)

  /** `VsomeIpConfig::new`: loopback address, a /24 netmask, no services. */
  function New(): (c: VsomeIpConfig)
    ensures c.appName == "smip_app" && c.appId == 0
    ensures c.services == [] && !c.serviceDiscovery && c.addrMode == VsomeIpCompat.Unicast
    ensures c.addr == V4(127, 0, 0, 1) && c.netmask == V4(255, 255, 255, 0)
    ensures c.instanceId == 0 && c.routing.None?
  {
    VsomeIpConfig("smip_app", 0, [], V4(127, 0, 0, 1), V4(255, 255, 255, 0),
      VsomeIpCompat.Unicast, false, 0, None)
  }

  /** `application_id`. Each setter sets its own field and leaves the others. */
  function ApplicationId(c: VsomeIpConfig, name: string, id: u16): (r: VsomeIpConfig)
    ensures r.appName == name && r.appId == id
    ensures r.(appName := c.appName, appId := c.appId) == c
  {
    c.(appName := name, appId := id)
  }

  /** `service_discovery`. */
  function ServiceDiscovery(c: VsomeIpConfig, enable: bool): (r: VsomeIpConfig)
    ensures r.serviceDiscovery == enable
    ensures r.(serviceDiscovery := c.serviceDiscovery) == c
  {
    c.(serviceDiscovery := enable)
  }

  /** `service`: appends at the end. */
  function Service(c: VsomeIpConfig, s: ServiceConfig): (r: VsomeIpConfig)
    ensures |r.services| == |c.services| + 1
    ensures r.services[..|c.services|] == c.services && r.services[|c.services|] == s
    ensures r.(services := c.services) == c
  {
    c.(services := c.services + [s])
  }

  /** `addr`. */
  function Addr(c: VsomeIpConfig, addr: IpAddr): (r: VsomeIpConfig)
    ensures r.addr == addr
    ensures r.(addr := c.addr) == c
  {
    c.(addr := addr)
  }

  /** `netmask`. */
  function Netmask(c: VsomeIpConfig, netmask: IpAddr): (r: VsomeIpConfig)
    ensures r.netmask == netmask
    ensures r.(netmask := c.netmask) == c
  {
    c.(netmask := netmask)
  }

  /** `instance_id`. */
  function InstanceIdOf(c: VsomeIpConfig, instanceId: InstanceId): (r: VsomeIpConfig)
    ensures r.instanceId == instanceId
    ensures r.(instanceId := c.instanceId) == c
  {
    c.(instanceId := instanceId)
  }

  /** The entry `build` writes for one service. */
  function ServiceJson(s: ServiceConfig, instanceId: InstanceId, modeKey: string, addr: IpAddr): (j: Json)
    ensures j.JObj?
  {
    JObj(map[
      "service" := JStr(Decimal(s.id as nat)),
      "instance" := JStr(Decimal(instanceId as nat)),
      "unreliable" := JNum(s.connType.port as int),
      "reliable" := JObj(map["port" := JNum(s.connType.port as int), "enable-magic-cookie" := JBool(false)]),
      modeKey := JStr(IpString(addr))])
  }

  function ServicesJson(c: VsomeIpConfig): (js: seq<Json>)
    ensures |js| == |c.services|
    ensures forall k :: 0 <= k < |js| ==>
      js[k] == ServiceJson(c.services[k], c.instanceId, VsomeIpCompat.BuildAddrMode(c.addrMode), c.addr)
  {
    seq(|c.services|, k requires 0 <= k < |c.services| =>
      ServiceJson(c.services[k], c.instanceId, VsomeIpCompat.BuildAddrMode(c.addrMode), c.addr))
  }

  /** `build`: the configuration written out as a JSON document. */
  function Build(c: VsomeIpConfig): (j: Json)
    ensures j.JObj?
  {
    var modeKey := VsomeIpCompat.BuildAddrMode(c.addrMode);
    var fields := map[
      modeKey := JStr(IpString(c.addr)),
      "netmask" := JStr(IpString(c.netmask)),
      "logging" := VsomeIpCompat.Logging,
      "applications" := JArr([JObj(map["name" := JStr(c.appName), "id" := JStr(Decimal(c.appId as nat))])]),
      "services" := JArr(ServicesJson(c)),
      "service-discovery" := JObj(map["enable" := JBool(c.serviceDiscovery)])];
    match c.routing
    case Some(routing) => JObj(fields["routing" := JStr(routing)])
    case None => JObj(fields)
  }

  /** What the document holds: the address under the mode key, the netmask,
      one application entry with its id in decimal, the discovery flag, and
      a `routing` key exactly when routing is configured. */
  lemma BuildTopLevel(c: VsomeIpConfig)
    ensures var f := Build(c).fields;
      var modeKey := VsomeIpCompat.BuildAddrMode(c.addrMode);
      && f.Keys == VsomeIpCompat.FixedKeys + {modeKey} + (if c.routing.Some? then {"routing"} else {})
      && f[modeKey] == JStr(IpString(c.addr))
      && f["netmask"] == JStr(IpString(c.netmask))
      && f["applications"] == JArr([JObj(map["name" := JStr(c.appName), "id" := JStr(Decimal(c.appId as nat))])])
      && f["service-discovery"] == JObj(map["enable" := JBool(c.serviceDiscovery)])
      && (c.routing.Some? ==> f["routing"] == JStr(c.routing.value))
  {
    VsomeIpCompat.AddrModeKeyIsFree(c.addrMode);
  }

  /** One service entry per configured service, in order, whose port
      appears both under `unreliable` and under `reliable.port`, whether
      the service is TCP or UDP. */
  lemma BuildServices(c: VsomeIpConfig, k: nat)
    requires k < |c.services|
    ensures var f := Build(c).fields;
      && "services" in f && f["services"].JArr?
      && |f["services"].items| == |c.services|
      && var e := f["services"].items[k].fields;
      var port := JNum(c.services[k].connType.port as int);
      && e.Keys == {"service", "instance", "unreliable", "reliable", VsomeIpCompat.BuildAddrMode(c.addrMode)}
      && e["service"] == JStr(Decimal(c.services[k].id as nat))
      && e["instance"] == JStr(Decimal(c.instanceId as nat))
      && e["unreliable"] == port
      && e["reliable"].fields["port"] == port
      && e[VsomeIpCompat.BuildAddrMode(c.addrMode)] == JStr(IpString(c.addr))
  {
    VsomeIpCompat.AddrModeKeyIsFree(c.addrMode);
    assert Build(c).fields["services"] == JArr(ServicesJson(c));
    ServiceEntry(c.services[k], c.instanceId, c.addrMode, c.addr);
  }

  /** The keys and values of one service entry. */
  lemma ServiceEntry(s: ServiceConfig, instanceId: InstanceId, mode: VsomeIpCompat.AddressingMode, addr: IpAddr)
    ensures var modeKey := VsomeIpCompat.BuildAddrMode(mode);
      var e := ServiceJson(s, instanceId, modeKey, addr).fields;
      var port := JNum(s.connType.port as int);
      && e.Keys == {"service", "instance", "unreliable", "reliable", modeKey}
      && e["service"] == JStr(Decimal(s.id as nat))
      && e["instance"] == JStr(Decimal(instanceId as nat))
      && e["unreliable"] == port
      && e["reliable"].fields["port"] == port
      && e[modeKey] == JStr(IpString(addr))
  {
    VsomeIpCompat.AddrModeKeyIsFree(mode);
  }

  /** The configuration of the crate's `test_service_config`. */
  function SampleConfig(): VsomeIpConfig {
    VsomeIpConfig("smip_app", 1, [ServiceConfig(2, VsomeIpCompat.Tcp(30509))],
      V4(192, 168, 0, 23), V4(255, 255, 255, 0), VsomeIpCompat.Unicast, false, 3, None)
  }

  /** The crate's tests expect a service entry without an `unreliable`
      key; `build` writes one, so the document for their configuration is
      not the tree they expect. */
  lemma SampleServiceHasUnreliable()
    ensures var e := Build(SampleConfig()).fields["services"].items[0].fields;
      "unreliable" in e && e["unreliable"] == JNum(30509)
  {
    BuildServices(SampleConfig(), 0);
  }
}
