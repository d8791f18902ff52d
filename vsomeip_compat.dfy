/** The vsomeip configuration builder of the `crates/vsomeip_compat` crate:
    a record with by-value setters, and `build`, which serialises it into
    the JSON document vsomeip reads. The document is modelled as a tree;
    its text, the pretty-printed echo and `set_vsomeip_config` (a
    temporary file and an environment variable) are not modelled. */
module VsomeIpCompat {
  import opened Wrappers
  import opened SomeIpTypes
  import opened Json

  datatype ConnectionType = Tcp(port: u16) | Udp(port: u16)

  datatype AddressingMode = Unicast | Multicast

  /** One offered service: its id, how it is reached and its versions. */
  datatype ServiceConfig = ServiceConfig(
    id: ServiceId, connType: ConnectionType,
    majorVersion: MajorVersion, minorVersion: MinorVersion)

  /** `VSomeIpServiceConfig::default()`. */
  function DefaultServiceConfig(): (s: ServiceConfig)
    ensures s.id == 0 && s.connType == Tcp(30509)
    ensures s.majorVersion == 0 && s.minorVersion == 0
  {
    ServiceConfig(0, Tcp(30509), 0, 0)
  }

  datatype VsomeIpConfig = VsomeIpConfig(
    appName: string,
    appId: u16,
    services: seq<ServiceConfig>,
    addr: Option<IpAddr>,
    netmask: Option<IpAddr>,
    addrMode: AddressingMode,
    serviceDiscovery: bool,
    instanceId: InstanceId,
    routing: Option<string>)

  /** The first IPv4 network of the host's default interface, as `netdev`
      would report it. */
  datatype Ipv4Net = Ipv4Net(addr: IpAddr, netmask: IpAddr)

  /** `VsomeIpConfig::new`. */
  function New(): (c: VsomeIpConfig)
    ensures c.appName == "smip_app" && c.appId == 0
    ensures c.services == [] && !c.serviceDiscovery && c.addrMode == Unicast
    ensures c.addr.None? && c.netmask.None?
    ensures c.instanceId == 0 && c.routing.None?
  {
    VsomeIpConfig("smip_app", 0, [], None, None, Unicast, false, 0, None)
  }

  /** `application_id`. Each setter sets its own field and leaves the others. */
  function ApplicationId(c: VsomeIpConfig, name: string, id: u16): (r: VsomeIpConfig)
    ensures r.appName == name && r.appId == id
    ensures r.(appName := c.appName, appId := c.appId) == c
  {
    c.(appName := name, appId := id)
  }

  /** `service_discovery`. */
  function ServiceDiscovery(c: VsomeIpConfig, enable: bool): (r: VsomeIpConfig)
    ensures r.serviceDiscovery == enable
    ensures r.(serviceDiscovery := c.serviceDiscovery) == c
  {
    c.(serviceDiscovery := enable)
  }

  /** `service`: appends at the end. */
  function Service(c: VsomeIpConfig, s: ServiceConfig): (r: VsomeIpConfig)
    ensures |r.services| == |c.services| + 1
    ensures r.services[..|c.services|] == c.services && r.services[|c.services|] == s
    ensures r.(services := c.services) == c
  {
    c.(services := c.services + [s])
  }

  /** `addr`. */
  function Addr(c: VsomeIpConfig, addr: IpAddr): (r: VsomeIpConfig)
    ensures r.addr == Some(addr)
    ensures r.(addr := c.addr) == c
  {
    c.(addr := Some(addr))
  }

  /** `netmask`. */
  function Netmask(c: VsomeIpConfig, netmask: IpAddr): (r: VsomeIpConfig)
    ensures r.netmask == Some(netmask)
    ensures r.(netmask := c.netmask) == c
  {
    c.(netmask := Some(netmask))
  }

  /** `instance_id`. */
  function InstanceIdOf(c: VsomeIpConfig, instanceId: InstanceId): (r: VsomeIpConfig)
    ensures r.instanceId == instanceId
    ensures r.(instanceId := c.instanceId) == c
  {
    c.(instanceId := instanceId)
  }

  /** `build_addr_mode`: the key under which the host address is written. */
  function BuildAddrMode(mode: AddressingMode): (k: string)
    ensures mode.Unicast? ==> k == "unicast"
    ensures mode.Multicast? ==> k == "multicast"
  {
    match mode
    case Unicast => "unicast"
    case Multicast => "multicast"
  }

  /** The keys `build` always writes besides the address key. */
  const FixedKeys: set<string> := {"netmask", "logging", "applications", "services", "service-discovery"}

  /** The address key never clashes with another key of the document, so
      it cannot overwrite one, and the two modes use different keys. */
  lemma AddrModeKeyIsFree(mode: AddressingMode)
    ensures BuildAddrMode(mode) !in FixedKeys && BuildAddrMode(mode) != "routing"
    ensures BuildAddrMode(Unicast) != BuildAddrMode(Multicast)
  {
  }

  /** `set_addr`. A configuration that already has both an address and a
      netmask is returned as it is; otherwise the default interface fills
      in whichever is missing. `None` stands for the panic the source
      raises when there is no default interface with an IPv4 address. */
  function SetAddr(c: VsomeIpConfig, iface: Option<Ipv4Net>): (r: Option<VsomeIpConfig>)
    ensures c.addr.Some? && c.netmask.Some? ==> r == Some(c)
    ensures r.Some? <==> (c.addr.Some? && c.netmask.Some?) || iface.Some?
    ensures r.Some? ==> r.value.addr.Some? && r.value.netmask.Some?
    ensures r.Some? ==> r.value.(addr := c.addr, netmask := c.netmask) == c
    ensures r.Some? && c.addr.Some? ==> r.value.addr == c.addr
    ensures r.Some? && c.netmask.Some? ==> r.value.netmask == c.netmask
    ensures r.Some? && c.addr.None? ==> r.value.addr == Some(iface.value.addr)
    ensures r.Some? && c.netmask.None? ==> r.value.netmask == Some(iface.value.netmask)
  {
    if c.addr.Some? && c.netmask.Some? then Some(c)
    else if iface.None? then None
    else
      var withAddr := if c.addr.None? then c.(addr := Some(iface.value.addr)) else c;
      var withMask := if withAddr.netmask.None? then withAddr.(netmask := Some(iface.value.netmask)) else withAddr;
      Some(withMask)
  }

  /** The fixed logging section. */
  const Logging: Json := JObj(map[
    "level" := JStr("debug"),
    "console" := JBool(true),
    "file" := JObj(map["enable" := JBool(false), "path" := JStr("/tmp/vsomeip.log")]),
    "dlt" := JBool(false)])

  /** The entry `build` writes for one service. */
  function ServiceJson(s: ServiceConfig, instanceId: InstanceId, modeKey: string, addr: IpAddr): (j: Json)
    ensures j.JObj?
  {
    JObj(map[
      "service" := JStr(Decimal(s.id as nat)),
      "instance" := JStr(Decimal(instanceId as nat)),
      "reliable" := JObj(map["port" := JNum(s.connType.port as int), "enable-magic-cookie" := JBool(false)]),
      modeKey := JStr(IpString(addr))])
  }

  function ServicesJson(c: VsomeIpConfig, addr: IpAddr): (js: seq<Json>)
    ensures |js| == |c.services|
    ensures forall k :: 0 <= k < |js| ==>
      js[k] == ServiceJson(c.services[k], c.instanceId, BuildAddrMode(c.addrMode), addr)
  {
    seq(|c.services|, k requires 0 <= k < |c.services| =>
      ServiceJson(c.services[k], c.instanceId, BuildAddrMode(c.addrMode), addr))
  }

  /** The document for a configuration whose address and netmask are set. */
  function Document(c: VsomeIpConfig): (j: Json)
    requires c.addr.Some? && c.netmask.Some?
    ensures j.JObj?
  {
    var modeKey := BuildAddrMode(c.addrMode);
    var fields := map[
      modeKey := JStr(IpString(c.addr.value)),
      "netmask" := JStr(IpString(c.netmask.value)),
      "logging" := Logging,
      "applications" := JArr([JObj(map["name" := JStr(c.appName), "id" := JStr(Decimal(c.appId as nat))])]),
      "services" := JArr(ServicesJson(c, c.addr.value)),
      "service-discovery" := JObj(map["enable" := JBool(c.serviceDiscovery)])];
    match c.routing
    case Some(routing) => JObj(fields["routing" := JStr(routing)])
    case None => JObj(fields)
  }

  /** `build`: fills in the address, then writes the document. `None`
      stands for the panic of `set_addr`. */
  function Build(c: VsomeIpConfig, iface: Option<Ipv4Net>): (r: Option<Json>)
    ensures r.Some? <==> SetAddr(c, iface).Some?
  {
    match SetAddr(c, iface)
    case None => None
    case Some(c') => Some(Document(c'))
  }

  /** What the document holds: the address under the mode key, the netmask,
      one application entry with its id in decimal, the discovery flag, and
      a `routing` key exactly when routing is configured. */
  lemma BuildTopLevel(c: VsomeIpConfig, iface: Option<Ipv4Net>)
    requires Build(c, iface).Some?
    ensures var c' := SetAddr(c, iface).value;
      var f := Build(c, iface).value.fields;
      && f.Keys == FixedKeys + {BuildAddrMode(c.addrMode)} + (if c.routing.Some? then {"routing"} else {})
      && f[BuildAddrMode(c.addrMode)] == JStr(IpString(c'.addr.value))
      && f["netmask"] == JStr(IpString(c'.netmask.value))
      && f["applications"] == JArr([JObj(map["name" := JStr(c.appName), "id" := JStr(Decimal(c.appId as nat))])])
      && f["service-discovery"] == JObj(map["enable" := JBool(c.serviceDiscovery)])
      && f["logging"] == Logging
      && (c.routing.Some? ==> f["routing"] == JStr(c.routing.value))
  {
    AddrModeKeyIsFree(c.addrMode);
  }

  /** One service entry per configured service, in order: the id and the
      instance in decimal, the port whether it is TCP or UDP, and the
      host address under the mode key. */
  lemma BuildServices(c: VsomeIpConfig, iface: Option<Ipv4Net>, k: nat)
    requires Build(c, iface).Some? && k < |c.services|
    ensures var f := Build(c, iface).value.fields;
      var addr := SetAddr(c, iface).value.addr.value;
      && "services" in f && f["services"].JArr?
      && |f["services"].items| == |c.services|
      && var e := f["services"].items[k].fields;
      && e.Keys == {"service", "instance", "reliable", BuildAddrMode(c.addrMode)}
      && e["service"] == JStr(Decimal(c.services[k].id as nat))
      && e["instance"] == JStr(Decimal(c.instanceId as nat))
      && e["reliable"].fields["port"] == JNum(c.services[k].connType.port as int)
      && e[BuildAddrMode(c.addrMode)] == JStr(IpString(addr))
  {
    AddrModeKeyIsFree(c.addrMode);
  }

  /** Building never depends on the host when both address and netmask are
      given. */
  lemma BuildIgnoresInterfaceWhenAddressed(c: VsomeIpConfig, i1: Option<Ipv4Net>, i2: Option<Ipv4Net>)
    requires c.addr.Some? && c.netmask.Some?
    ensures Build(c, i1) == Build(c, i2) == Some(Document(c))
  {
  }

  /** The configuration of the crate's `test_service_config`. */
  function SampleConfig(serviceDiscovery: bool): VsomeIpConfig {
    VsomeIpConfig("smip_app", 1, [DefaultServiceConfig().(id := 2, connType := Tcp(30509))],
      Some(V4(192, 168, 0, 23)), Some(V4(255, 255, 255, 0)), Unicast, serviceDiscovery, 3, None)
  }

  /** The tree the crate's two tests expect, with and without service
      discovery. */
  lemma SampleConfigDocument(serviceDiscovery: bool, iface: Option<Ipv4Net>)
    ensures Build(SampleConfig(serviceDiscovery), iface) == Some(JObj(map[
      "unicast" := JStr("192.168.0.23"),
      "netmask" := JStr("255.255.255.0"),
      "logging" := JObj(map[
        "level" := JStr("debug"),
        "console" := JBool(true),
        "file" := JObj(map["enable" := JBool(false), "path" := JStr("/tmp/vsomeip.log")]),
        "dlt" := JBool(false)]),
      "applications" := JArr([JObj(map["name" := JStr("smip_app"), "id" := JStr("1")])]),
      "services" := JArr([JObj(map[
        "service" := JStr("2"),
        "instance" := JStr("3"),
        "reliable" := JObj(map["port" := JNum(30509), "enable-magic-cookie" := JBool(false)]),
        "unicast" := JStr("192.168.0.23")])]),
      "service-discovery" := JObj(map["enable" := JBool(serviceDiscovery)])]))
  {
    var c := SampleConfig(serviceDiscovery);
    SampleAddressStrings();
    SampleServiceEntry(serviceDiscovery);
    assert Decimal(1) == "1";
    assert SetAddr(c, iface) == Some(c);
  }

  /** The dotted strings of the sample address and netmask. */
  lemma SampleAddressStrings()
    ensures IpString(V4(192, 168, 0, 23)) == "192.168.0.23"
    ensures IpString(V4(255, 255, 255, 0)) == "255.255.255.0"
  {
    SampleOctets();
  }

  /** The decimal text of the octets the sample uses. */
  lemma SampleOctets()
    ensures Decimal(192) == "192" && Decimal(168) == "168" && Decimal(23) == "23"
    ensures Decimal(255) == "255" && Decimal(0) == "0"
  {
    assert Decimal(19) == "19" && Decimal(16) == "16" && Decimal(2) == "2";
    assert Decimal(25) == "25";
  }

  /** The sample's one service entry. */
  lemma SampleServiceEntry(serviceDiscovery: bool)
    ensures ServicesJson(SampleConfig(serviceDiscovery), V4(192, 168, 0, 23)) == [JObj(map[
        "service" := JStr("2"),
        "instance" := JStr("3"),
        "reliable" := JObj(map["port" := JNum(30509), "enable-magic-cookie" := JBool(false)]),
        "unicast" := JStr("192.168.0.23")])]
  {
    SampleAddressStrings();
    assert Decimal(2) == "2" && Decimal(3) == "3";
  }
}
