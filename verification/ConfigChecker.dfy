/** The daemon's own check of the documents a client sends, written apart from the code that builds them. */
module ConfigChecker {
  import opened Basics
  import opened Text
  import opened JsonValues

  const MAX_SERVER_IPS: nat := 64

  const TUN_INTERFACE := "varmlen0"

  const PROXY_PORT: nat := 2081

  /** The daemon's own copy of the mark it expects. */
  const DIAL_MARK: nat := 0x2024

  const PROTOCOLS := {"http", "socks", "shadowsocks", "vmess", "vless", "trojan", "hysteria", "wireguard"}

  const SYSTEM_OUTBOUNDS := [("direct", "freedom"), ("dns-out", "dns"), ("block", "blackhole")]

  // ---- What the daemon accepts ----

  predicate LogFine(doc: Json) {
    var log := Get(doc, Log);
    log.Some? && log.value.Obj? && log.value.fields.Keys <= {LogLevel}
  }

  predicate Is(value: Json, tag: string, protocol: string) {
    TextAt(value, Tag) == Some(tag) && TextAt(value, Protocol) == Some(protocol)
  }

  function Matching(tag: string, protocol: string): Json -> bool {
    value => Is(value, tag, protocol)
  }

  predicate IsProxy(outbound: Json) {
    var protocol := TextAt(outbound, Protocol);
    protocol.Some? && protocol.value in PROTOCOLS
  }

  predicate Tagged(value: Json) {
    TextAt(value, Tag).Some? && TextAt(value, Tag).value != ""
  }

  /** Every value has a tag of its own. */
  predicate DistinctTags(values: seq<Json>) {
    && (forall i :: 0 <= i < |values| ==> Tagged(values[i]))
    && (forall i, j :: 0 <= i < j < |values| ==> TextAt(values[i], Tag) != TextAt(values[j], Tag))
  }

  predicate MainInbound(inbound: Json, tun: bool) {
    if tun then
      Is(inbound, "tun-in", "tun") && AsText(Within(Get(inbound, Settings), Name)) == Some(TUN_INTERFACE)
    else
      Is(inbound, "socks-in", "socks") && TextAt(inbound, Listen) == Some("127.0.0.1")
        && Get(inbound, Port) == Some(Num(PROXY_PORT))
  }

  predicate ExactlyOne(outbounds: seq<Json>, tag: string, protocol: string) {
    |Filter(outbounds, Matching(tag, protocol))| == 1
  }

  predicate MainOutbounds(outbounds: seq<Json>) {
    var proxies := |Filter(outbounds, IsProxy)|;
    && DistinctTags(outbounds)
    && 1 <= proxies <= MAX_SERVER_IPS
    && |outbounds| == proxies + 3
    && ExactlyOne(outbounds, "direct", "freedom") && ExactlyOne(outbounds, "dns-out", "dns")
    && ExactlyOne(outbounds, "block", "blackhole")
  }

  predicate IsObject(value: Option<Json>) { value.Some? && value.value.Obj? }

  predicate MainAccepted(doc: Json, tun: bool) {
    var inbounds, outbounds := ItemsAt(doc, Inbounds), ItemsAt(doc, Outbounds);
    && doc.Obj? && doc.fields.Keys <= {Log, Dns, Inbounds, Outbounds, Routing, Observatory, BurstObservatory}
    && LogFine(doc)
    && inbounds.Some? && |inbounds.value| == 1 && MainInbound(inbounds.value[0], tun)
    && outbounds.Some? && MainOutbounds(outbounds.value)
    && IsObject(Get(doc, Dns)) && IsObject(Get(doc, Routing))
    && Clean(doc)
  }

  function InboundTagAt(index: nat): string { "socks-in-" + PrintNat(index) }

  predicate PingInbound(inbound: Json, index: nat, ports: seq<nat>)
    requires index < |ports|
  {
    var tag, settings := TextAt(inbound, Tag), Get(inbound, Settings);
    && (tag == Some(InboundTagAt(index)) || (|ports| == 1 && tag == Some("socks-in")))
    && TextAt(inbound, Protocol) == Some("socks") && TextAt(inbound, Listen) == Some("127.0.0.1")
    && Get(inbound, Port) == Some(Num(ports[index]))
    && AsText(Within(settings, Auth)) == Some("noauth") && Within(settings, Udp) == Some(Bool(false))
  }

  predicate PingProxy(outbound: Json) {
    && IsProxy(outbound)
    && Tagged(outbound)
    && (TextAt(outbound, Protocol) == Some("wireguard")
        || Within(Within(Get(outbound, StreamSettings), Sockopt), Mark) == Some(Num(DIAL_MARK)))
  }

  predicate PingProxies(proxies: seq<Json>) {
    (forall i :: 0 <= i < |proxies| ==> PingProxy(proxies[i])) && DistinctTags(proxies)
  }

  function TagSet(values: seq<Json>): set<string> {
    set i | 0 <= i < |values| && TextAt(values[i], Tag).Some? :: TextAt(values[i], Tag).value
  }

  predicate Picks(selector: Json, proxyTags: set<string>) {
    selector.Str? && exists tag :: tag in proxyTags && selector.text <= tag
  }

  predicate PicksSome(selectors: seq<Json>, proxyTags: set<string>) {
    exists i :: 0 <= i < |selectors| && Picks(selectors[i], proxyTags)
  }

  predicate PingBalancer(balancer: Json, proxyTags: set<string>) {
    var selectors := ItemsAt(balancer, Selector);
    Tagged(balancer) && selectors.Some? && PicksSome(selectors.value, proxyTags)
  }

  predicate PingBalancers(balancers: seq<Json>, proxyTags: set<string>) {
    && |balancers| <= MAX_SERVER_IPS
    && (forall i :: 0 <= i < |balancers| ==> PingBalancer(balancers[i], proxyTags))
    && DistinctTags(balancers)
  }

  predicate NamesOneOf(tag: Option<string>, tags: set<string>) { tag.Some? && tag.value in tags }

  /** `inboundTag` may be missing when there is only one inbound. */
  predicate RuleInbound(rule: Json, tag: string, single: bool) {
    var listed := Get(rule, InboundTag);
    if listed.None? then single else listed.value == Arr([Str(tag)])
  }

  predicate PingRule(rule: Json, tag: string, single: bool, proxyTags: set<string>, balancerTags: set<string>) {
    && TextAt(rule, Type) == Some("field") && TextAt(rule, Network) == Some("tcp,udp")
    && RuleInbound(rule, tag, single)
    && NamesOneOf(TextAt(rule, OutboundTag), proxyTags) != NamesOneOf(TextAt(rule, BalancerTag), balancerTags)
  }

  function RawTag(value: Json): string {
    var tag := TextAt(value, Tag);
    if tag.Some? then tag.value else ""
  }

  predicate PingRouting(routing: Json, inbounds: seq<Json>, proxyTags: set<string>) {
    var balancers, rules := Get(routing, Balancers), ItemsAt(routing, Rules);
    && routing.Obj? && routing.fields.Keys <= {Rules, Balancers}
    && (balancers.Some? ==> balancers.value.Arr? && PingBalancers(balancers.value.items, proxyTags))
    && rules.Some? && |rules.value| == |inbounds|
    && forall i :: 0 <= i < |rules.value| ==>
         PingRule(rules.value[i], RawTag(inbounds[i]), |inbounds| == 1, proxyTags, TagSet(Flat(AsItems(balancers))))
  }

  predicate PingOutbounds(outbounds: seq<Json>) {
    && 2 <= |outbounds| <= MAX_SERVER_IPS + 1
    && Is(outbounds[|outbounds| - 1], "direct", "freedom")
    && PingProxies(outbounds[..|outbounds| - 1])
  }

  predicate LoopbackInbounds(inbounds: seq<Json>, ports: seq<nat>) {
    |inbounds| == |ports| && forall i :: 0 <= i < |ports| ==> PingInbound(inbounds[i], i, ports)
  }

  predicate PingAccepted(doc: Json, ports: seq<nat>) {
    var inbounds, outbounds, routing := ItemsAt(doc, Inbounds), ItemsAt(doc, Outbounds), Get(doc, Routing);
    && doc.Obj? && doc.fields.Keys <= {Log, Inbounds, Outbounds, Routing, Observatory, BurstObservatory}
    && LogFine(doc)
    && inbounds.Some? && LoopbackInbounds(inbounds.value, ports)
    && outbounds.Some? && PingOutbounds(outbounds.value)
    && routing.Some?
    && PingRouting(routing.value, inbounds.value, TagSet(outbounds.value[..|outbounds.value| - 1]))
    && Clean(doc)
  }

  // ---- The checks as they run ----

  /** A pass that fills a set of tags and stops at the first missing, empty or repeated one. */
  method CheckTags(values: seq<Json>) returns (ok: bool, tags: set<string>)
    ensures ok <==> DistinctTags(values)
    ensures ok ==> tags == TagSet(values)
  {
    tags := {};
    for i := 0 to |values|
      invariant DistinctTags(values[..i])
      invariant forall tag :: tag in tags <==> exists k :: 0 <= k < i && TextAt(values[k], Tag) == Some(tag)
    {
      var tag := TextAt(values[i], Tag);
      if tag.None? || tag.value == "" || tag.value in tags {
        return false, tags;
      }
      tags := tags + {tag.value};
    }
    assert values[..|values|] == values;
    return true, tags;
  }

  method CountProxies(outbounds: seq<Json>) returns (n: nat)
    ensures n == |Filter(outbounds, IsProxy)|
  {
    n := 0;
    for i := 0 to |outbounds|
      invariant n == |Filter(outbounds[..i], IsProxy)|
    {
      assert outbounds[..i + 1] == outbounds[..i] + [outbounds[i]];
      FilterConcat(outbounds[..i], [outbounds[i]], IsProxy);
      if IsProxy(outbounds[i]) {
        n := n + 1;
      }
    }
    assert outbounds[..|outbounds|] == outbounds;
  }

  /** `validate_xray_document`. */
  method ValidateXrayDocument(doc: Json, tun: bool) returns (ok: bool)
    ensures ok <==> MainAccepted(doc, tun)
  {
    hide HasFileKey, Filter;
    if !doc.Obj? || !(doc.fields.Keys <= {Log, Dns, Inbounds, Outbounds, Routing, Observatory, BurstObservatory}) {
      return false;
    }
    if !LogFine(doc) {
      return false;
    }
    var inbounds := ItemsAt(doc, Inbounds);
    if inbounds.None? || |inbounds.value| != 1 || !MainInbound(inbounds.value[0], tun) {
      return false;
    }
    var outbounds := ItemsAt(doc, Outbounds);
    if outbounds.None? {
      return false;
    }
    var validTags, _ := CheckTags(outbounds.value);
    var count := CountProxies(outbounds.value);
    var exact := true;
    for i := 0 to |SYSTEM_OUTBOUNDS|
      invariant exact <==> forall k :: 0 <= k < i ==>
                  ExactlyOne(outbounds.value, SYSTEM_OUTBOUNDS[k].0, SYSTEM_OUTBOUNDS[k].1)
    {
      exact := exact && ExactlyOne(outbounds.value, SYSTEM_OUTBOUNDS[i].0, SYSTEM_OUTBOUNDS[i].1);
    }
    assert exact <==> ExactlyOne(outbounds.value, SYSTEM_OUTBOUNDS[0].0, SYSTEM_OUTBOUNDS[0].1)
                      && ExactlyOne(outbounds.value, SYSTEM_OUTBOUNDS[1].0, SYSTEM_OUTBOUNDS[1].1)
                      && ExactlyOne(outbounds.value, SYSTEM_OUTBOUNDS[2].0, SYSTEM_OUTBOUNDS[2].1);
    if !validTags || !(1 <= count <= MAX_SERVER_IPS) || |outbounds.value| != count + |SYSTEM_OUTBOUNDS| || !exact {
      return false;
    }
    if !IsObject(Get(doc, Dns)) || !IsObject(Get(doc, Routing)) {
      return false;
    }
    return Clean(doc);
  }

  method CheckProxies(proxies: seq<Json>) returns (ok: bool, tags: set<string>)
    ensures ok <==> PingProxies(proxies)
    ensures ok ==> tags == TagSet(proxies)
  {
    tags := {};
    for i := 0 to |proxies|
      invariant PingProxies(proxies[..i])
      invariant forall tag :: tag in tags <==> exists k :: 0 <= k < i && TextAt(proxies[k], Tag) == Some(tag)
    {
      if !PingProxy(proxies[i]) || TextAt(proxies[i], Tag).value in tags {
        return false, tags;
      }
      tags := tags + {TextAt(proxies[i], Tag).value};
    }
    assert proxies[..|proxies|] == proxies;
    return true, tags;
  }

  method CheckBalancers(balancers: seq<Json>, proxyTags: set<string>) returns (ok: bool, tags: set<string>)
    ensures ok <==> PingBalancers(balancers, proxyTags)
    ensures ok ==> tags == TagSet(balancers)
  {
    tags := {};
    if |balancers| > MAX_SERVER_IPS {
      return false, tags;
    }
    for i := 0 to |balancers|
      invariant PingBalancers(balancers[..i], proxyTags)
      invariant forall tag :: tag in tags <==> exists k :: 0 <= k < i && TextAt(balancers[k], Tag) == Some(tag)
    {
      if !PingBalancer(balancers[i], proxyTags) || TextAt(balancers[i], Tag).value in tags {
        return false, tags;
      }
      tags := tags + {TextAt(balancers[i], Tag).value};
    }
    assert balancers[..|balancers|] == balancers;
    return true, tags;
  }

  /** `validate_ping_xray_document`. */
  method ValidatePingDocument(doc: Json, ports: seq<nat>) returns (ok: bool)
    ensures ok <==> PingAccepted(doc, ports)
  {
    hide HasFileKey, PingProxies, PingBalancers, PingRule, PingInbound, TagSet, LogFine;
    if !doc.Obj? || !(doc.fields.Keys <= {Log, Inbounds, Outbounds, Routing, Observatory, BurstObservatory})
       || !LogFine(doc) {
      return false;
    }
    var inbounds := ItemsAt(doc, Inbounds);
    if inbounds.None? || |inbounds.value| != |ports| {
      return false;
    }
    for index := 0 to |ports|
      invariant forall i :: 0 <= i < index ==> PingInbound(inbounds.value[i], i, ports)
    {
      if !PingInbound(inbounds.value[index], index, ports) {
        return false;
      }
    }
    var outbounds := ItemsAt(doc, Outbounds);
    if outbounds.None? || !(2 <= |outbounds.value| <= MAX_SERVER_IPS + 1)
       || !Is(outbounds.value[|outbounds.value| - 1], "direct", "freedom") {
      return false;
    }
    var proxiesOk, proxyTags := CheckProxies(outbounds.value[..|outbounds.value| - 1]);
    if !proxiesOk {
      return false;
    }
    var routing := Get(doc, Routing);
    if routing.None? {
      return false;
    }
    ok := ValidatePingRouting(routing.value, inbounds.value, proxyTags);
    ok := ok && Clean(doc);
  }

  method ValidatePingRouting(routing: Json, inbounds: seq<Json>, proxyTags: set<string>) returns (ok: bool)
    ensures ok <==> PingRouting(routing, inbounds, proxyTags)
  {
    if !routing.Obj? || !(routing.fields.Keys <= {Rules, Balancers}) {
      return false;
    }
    var balancers := Get(routing, Balancers);
    var balancerTags: set<string> := {};
    if balancers.Some? {
      if !balancers.value.Arr? {
        return false;
      }
      var fine;
      fine, balancerTags := CheckBalancers(balancers.value.items, proxyTags);
      if !fine {
        return false;
      }
    }
    assert balancerTags == TagSet(Flat(AsItems(balancers)));
    hide PingRule, PingBalancers, TagSet;
    var rules := ItemsAt(routing, Rules);
    if rules.None? || |rules.value| != |inbounds| {
      return false;
    }
    for index := 0 to |inbounds|
      invariant forall i :: 0 <= i < index ==>
                  PingRule(rules.value[i], RawTag(inbounds[i]), |inbounds| == 1, proxyTags, balancerTags)
    {
      if !PingRule(rules.value[index], RawTag(inbounds[index]), |inbounds| == 1, proxyTags, balancerTags) {
        return false;
      }
    }
    return true;
  }
}
