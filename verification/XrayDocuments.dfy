/** The documents themselves: the main configuration, the latency probe, the preflight and the legacy probe. */
module XrayDocuments {
  import opened Basics
  import opened Text
  import opened JsonValues
  import opened OutboundJson
  import opened XrayConfig
  import O = Outbound
  import R = RouteRules

  // ---- Inbounds and outbounds of the main configuration ----

  function SniffingJson(): Json {
    Obj(map[Enabled := Bool(true), DestOverride := Texts(["http", "tls", "quic"]), RouteOnly := Bool(true)])
  }

  function InboundJson(tun: R.TunMode, mtu: nat): Json {
    match tun
    case XrayNative =>
      Obj(map[Tag := Str("tun-in"), Protocol := Str("tun"),
              Settings := Obj(map[Name := Str(TUN_NAME), Mtu := Num(mtu)]),
              Sniffing := SniffingJson()])
    case Tun2socks =>
      Obj(map[Tag := Str("socks-in"), Listen := Str("127.0.0.1"), Port := Num(SOCKS_PORT), Protocol := Str("socks"),
              Settings := Obj(map[Udp := Bool(true), Auth := Str("noauth")]), Sniffing := SniffingJson()])
  }

  function DirectOutbound(): Json {
    Obj(map[Tag := Str("direct"), Protocol := Str("freedom"), Settings := Obj(map[DomainStrategy := Str("UseIP")]),
            StreamSettings := Obj(map[Sockopt := MarkedSockopt()])])
  }

  function PlainOutbound(tag: string, protocol: string): Json {
    Obj(map[Tag := Str(tag), Protocol := Str(protocol)])
  }

  function SystemOutbounds(): seq<Json> {
    [DirectOutbound(), PlainOutbound("dns-out", "dns"), PlainOutbound("block", "blackhole")]
  }

  // ---- Routing ----

  function TargetJson(target: R.ProxyTarget): (r: map<Key, Json>)
    ensures CleanFields(r)
  {
    hide HasFileKey;
    match target
    case Outbound(tag) => map[OutboundTag := Str(tag)]
    case Balancer(tag) => map[BalancerTag := Str(tag)]
  }

  function RuleTargetJson(target: R.Target): (r: map<Key, Json>)
    ensures CleanFields(r)
  {
    hide HasFileKey, TargetJson;
    match target
    case DnsOut => map[OutboundTag := Str("dns-out")]
    case Direct => map[OutboundTag := Str("direct")]
    case Block => map[OutboundTag := Str("block")]
    case Proxy(via) => TargetJson(via)
  }

  function PatternText(pattern: R.Pattern): string {
    match pattern
    case Suffix(name) => "domain:" + name
    case Full(name) => "full:" + name
  }

  function ConditionJson(condition: R.Condition, world: World): (r: map<Key, Json>)
    requires !condition.Provider?
    ensures CleanFields(r)
  {
    hide HasFileKey, Texts;
    match condition
    case DnsPort(tag) => map[InboundTag := Texts([tag]), Port := Num(53)]
    case Ip(prefixes) => map[Key.Ip := Texts(seq(|prefixes|,
                                                 i requires 0 <= i < |prefixes| => world.show(prefixes[i])))]
    case Process(name) => map[Key.Process := Texts([name])]
    case Domain(patterns) => map[Key.Domain := Texts(seq(|patterns|,
                                                         i requires 0 <= i < |patterns| => PatternText(patterns[i])))]
    case AnyNetwork => map[Network := Str("tcp,udp")]
  }

  function RuleJson(rule: R.Rule, world: World): (j: Json)
    requires !rule.condition.Provider?
    ensures Clean(j)
  {
    hide HasFileKey, ConditionJson, RuleTargetJson, Join, One;
    Record(Join(Join(One(Type, Str("field")), ConditionJson(rule.condition, world)), RuleTargetJson(rule.target)))
  }

  /** The rules of Varmlen's own, none of them the provider's. */
  predicate OwnRules(rules: seq<R.Rule>) {
    forall i :: 0 <= i < |rules| ==> !rules[i].condition.Provider?
  }

  function RulesJson(rules: seq<R.Rule>, world: World): (r: seq<Json>)
    requires OwnRules(rules)
    ensures CleanItems(r)
  {
    seq(|rules|, i requires 0 <= i < |rules| => RuleJson(rules[i], world))
  }

  function Chosen(value: Option<string>, allowed: set<string>): Option<string> {
    if value.Some? && value.value in allowed then value else None
  }

  /** `apply_provider_routing_options`. */
  function RoutingOptions(profile: Option<Json>): (r: map<Key, Json>)
    ensures r.Keys <= {DomainStrategy, DomainMatcher} && CleanFields(r)
  {
    hide HasFileKey, Chosen, Clean, CleanFields, CleanOption, Maybe, TextOf;
    var routing := Within(profile, Routing);
    var strategy := Chosen(AsText(Within(routing, DomainStrategy)), {"AsIs", "IPIfNonMatch", "IPOnDemand"});
    var matcher := Chosen(AsText(Within(routing, DomainMatcher)), {"linear", "hybrid"});
    Join(Maybe(DomainStrategy, TextOf(strategy)), Maybe(DomainMatcher, TextOf(matcher)))
  }

  function BalancersJson(balancers: Option<seq<Json>>): Option<Json> {
    if balancers.Some? then Some(Arr(balancers.value)) else None
  }

  // ---- DNS ----

  /** A provider DNS server that stays, with its normalised address. */
  function KeptServer(value: Json, world: World): Option<Json> {
    var raw := if value.Str? then Some(value.text) else TextAt(value, Address);
    var address := if raw.Some? then world.dnsAddress(raw.value) else None;
    if address.None? then None
    else if value.Str? then Some(Str(address.value))
    else Some(Obj(value.fields[Address := Str(address.value)]))
  }

  function KeptServers(values: seq<Json>, world: World): seq<Json> {
    if values == [] then []
    else
      var first, rest := KeptServer(values[0], world), KeptServers(values[1..], world);
      if first.Some? then [first.value] + rest else rest
  }

  function OrInsert(fields: map<Key, Json>, key: Key, value: Json): map<Key, Json> {
    if key in fields then fields else fields[key := value]
  }

  function DnsHosts(hosts: Option<Json>, usingDefaults: bool): map<Key, Json> {
    var own := FieldsOf(hosts);
    var bootstrapped :=
      if usingDefaults then
        OrInsert(OrInsert(own, Other("cloudflare-dns.com"), Texts(["1.1.1.1", "1.0.0.1"])),
                 Other("dns.google"), Texts(["8.8.8.8", "8.8.4.4"]))
      else own;
    OrInsert(bootstrapped, Other("domain:googleapis.cn"), Str("googleapis.com"))
  }

  function DnsFields(own: map<Key, Json>, servers: Json, strategy: string, hosts: Json): map<Key, Json> {
    OrInsert(own[Servers := servers][QueryStrategy := Str(strategy)][Hosts := hosts], EnableParallelQuery, Bool(true))
  }

  /** The DNS section of `build_dns_plan`. */
  function DnsJson(profile: Option<Json>, world: World): Json {
    var dns := Within(profile, Dns);
    var kept := KeptServers(Flat(AsItems(Within(dns, Servers))), world);
    var servers := if kept == [] then Texts(["https://cloudflare-dns.com/dns-query", "https://dns.google/dns-query"])
                   else Arr(kept);
    var strategy := Chosen(AsText(Within(dns, QueryStrategy)),
                           {"UseIP", "UseIPv4", "UseIPv6", "UseIPv4v6", "UseIPv6v4"});
    var fields := FieldsOf(dns) - {ClientIp};
    Obj(DnsFields(fields, servers, O.Or(strategy, "UseIPv4"), Obj(DnsHosts(Lookup(fields, Hosts), kept == []))))
  }

  // ---- The documents ----

  function LogJson(level: string): Json { Obj(map[LogLevel := Str(level)]) }

  function XrayLogLevel(level: string): string {
    if level in {"debug", "info", "error", "none"} then level else "warning"
  }

  /** Sections with the provider's observatories, if it has any. */
  function Observed(sections: map<Key, Json>, plan: Plan): map<Key, Json> {
    Join(Join(sections, Maybe(Observatory, plan.observatory)), Maybe(BurstObservatory, plan.burstObservatory))
  }

  /** The rules around the provider's are Varmlen's own, as the split compiler gives them. */
  function MainRouting(loc: Location, plan: Plan, before: seq<R.Rule>, after: seq<R.Rule>, world: World): Json
    requires OwnRules(before) && OwnRules(after)
  {
    var rules := Arr(RulesJson(before, world) + plan.providerRules + RulesJson(after, world));
    Obj(Join(Join(map[Rules := rules], RoutingOptions(loc.rawProfile)),
             Maybe(Balancers, BalancersJson(plan.balancers))))
  }

  /** `build_xray_config`, given the plan. */
  function MainDocument(loc: Location, plan: Plan, mode: string, tun: R.TunMode, level: string, mtu: nat,
                        before: seq<R.Rule>, after: seq<R.Rule>, world: World): Json
    requires OwnRules(before) && OwnRules(after)
  {
    var inbound := if mode == "proxy" then InboundJson(R.Tun2socks, TUN_MTU) else InboundJson(tun, mtu);
    var sections := map[Log := LogJson(XrayLogLevel(level)), Dns := DnsJson(loc.rawProfile, world),
                        Inbounds := Arr([inbound]),
                        Outbounds := Arr(plan.proxies + SystemOutbounds()),
                        Routing := MainRouting(loc, plan, before, after, world)];
    Obj(Observed(sections, plan))
  }

  function SocksInbound(tag: string, port: nat): Json {
    Obj(map[Tag := Str(tag), Listen := Str("127.0.0.1"), Port := Num(port), Protocol := Str("socks"),
            Settings := Obj(map[Udp := Bool(false), Auth := Str("noauth")])])
  }

  function SocksTag(index: nat): string { "socks-in-" + PrintNat(index) }

  /** The keys of a rule that sends everything to the target. */
  function Everything(target: R.ProxyTarget): map<Key, Json> {
    TargetJson(target)[Type := Str("field")][Network := Str("tcp,udp")]
  }

  function ProbeRule(tag: string, target: R.ProxyTarget): Json {
    Obj(Everything(target)[InboundTag := Arr([Str(tag)])])
  }

  /** The shape all the loopback probes share. */
  function ProbeShape(proxies: seq<Json>, inbounds: seq<Json>, routing: map<Key, Json>): Json {
    Obj(map[Log := LogJson("warning"), Inbounds := Arr(inbounds),
            Outbounds := Arr(proxies + [PlainOutbound("direct", "freedom")]), Routing := Obj(routing)])
  }

  function PingInbounds(ports: seq<nat>): seq<Json> {
    seq(|ports|, i requires 0 <= i < |ports| => SocksInbound(SocksTag(i), ports[i]))
  }

  function PingRules(proxies: seq<Json>): seq<Json> {
    seq(|proxies|, i requires 0 <= i < |proxies| => ProbeRule(SocksTag(i), R.Outbound(TagOf(proxies[i]))))
  }

  function PingDocument(plan: Plan, ports: seq<nat>): Json {
    ProbeShape(plan.proxies, PingInbounds(ports), map[Rules := Arr(PingRules(plan.proxies))])
  }

  /** One loopback inbound and one rule per concrete proxy; every proxy of a plan has a tag (`PlanIsGood`). */
  method PingParts(proxies: seq<Json>, ports: seq<nat>) returns (inbounds: seq<Json>, rules: seq<Json>)
    requires |ports| == |proxies|
    ensures inbounds == PingInbounds(ports) && rules == PingRules(proxies)
  {
    hide SocksInbound, ProbeRule, SocksTag, TagOf;
    inbounds, rules := [], [];
    for index := 0 to |ports|
      invariant |inbounds| == index && |rules| == index
      invariant forall i :: 0 <= i < index ==> inbounds[i] == SocksInbound(SocksTag(i), ports[i])
      invariant forall i :: 0 <= i < index ==> rules[i] == ProbeRule(SocksTag(i), R.Outbound(TagOf(proxies[i])))
    {
      inbounds := inbounds + [SocksInbound(SocksTag(index), ports[index])];
      rules := rules + [ProbeRule(SocksTag(index), R.Outbound(TagOf(proxies[index])))];
    }
  }

  /** `build_ping_config`. */
  method BuildPingConfig(loc: Location, ports: seq<nat>, world: World) returns (r: Outcome<Json>)
    ensures var plan := OutboundPlan(loc, world);
            if plan.Panics? then r == Panics
            else if plan.Refused? then r == Refused
            else if |ports| != |plan.value.proxies| then r == Refused
            else r == Done(PingDocument(plan.value, ports))
  {
    hide OutboundPlan, ProbeShape, PingInbounds, PingRules;
    var planned := OutboundPlan(loc, world);
    if !planned.Done? {
      return if planned.Panics? then Panics else Refused;
    }
    if |ports| != |planned.value.proxies| {
      return Refused;
    }
    var inbounds, rules := PingParts(planned.value.proxies, ports);
    return Done(ProbeShape(planned.value.proxies, inbounds, map[Rules := Arr(rules)]));
  }

  /** `build_connection_probe_config`: one inbound that follows the profile's effective target. */
  function ProbeDocument(plan: Plan): Json {
    var rule := ProbeRule(SocksTag(0), plan.target);
    var routing := Join(map[Rules := Arr([rule])], Maybe(Balancers, BalancersJson(plan.balancers)));
    Obj(Observed(ProbeShape(plan.proxies, [SocksInbound(SocksTag(0), PROBE_PORT_BASE)], routing).fields, plan))
  }

  /** `ping_placeholder_ports`. */
  function PlaceholderPorts(plan: Plan): Option<seq<nat>> {
    if 1 <= |plan.proxies| <= 64 then
      Some(seq(|plan.proxies|, i requires 0 <= i < |plan.proxies| => PROBE_PORT_BASE + i))
    else None
  }

  // ---- The probe an older daemon understands ----

  function FirstSelected(selector: string, proxies: seq<Json>): Option<string> {
    if proxies == [] then None
    else if selector <= TagOf(proxies[0]) then Some(TagOf(proxies[0]))
    else FirstSelected(selector, proxies[1..])
  }

  function FirstSelectedByAny(selectors: seq<Json>, proxies: seq<Json>): Option<string> {
    if selectors == [] then None
    else
      var found := if selectors[0].Str? then FirstSelected(selectors[0].text, proxies) else None;
      if found.Some? then found else FirstSelectedByAny(selectors[1..], proxies)
  }

  function HasTag(tag: string): Json -> bool {
    value => TextAt(value, Tag) == Some(tag)
  }

  /** `ping_outbound_tag`: the one proxy that stands for the plan. */
  function PingTag(plan: Plan): string
    requires plan.proxies != []
  {
    if plan.target.Outbound? then plan.target.tag
    else
      var balancer := Find(Flat(plan.balancers), HasTag(plan.target.tag));
      if balancer.None? then TagOf(plan.proxies[0])
      else
        var fallback := TextAt(balancer.value, FallbackTag);
        if Names(fallback, Tags(plan.proxies)) then fallback.value
        else
          O.Or(FirstSelectedByAny(Flat(ItemsAt(balancer.value, Selector)), plan.proxies), TagOf(plan.proxies[0]))
  }

  /** `build_legacy_ping_config`. */
  function LegacyDocument(plan: Plan, port: nat): Json
    requires plan.proxies != []
  {
    var rule := Obj(Everything(R.Outbound(PingTag(plan))));
    ProbeShape(plan.proxies, [SocksInbound("socks-in", port)], map[Rules := Arr([rule])])
  }
}
