/** The client's documents and the daemon's check of them agree: exactly which built documents are accepted. */
module Acceptance {
  import opened Basics
  import opened Text
  import opened JsonValues
  import opened OutboundJson
  import opened XrayConfig
  import opened XrayDocuments
  import opened ConfigChecker
  import V = ValidationPorts
  import R = RouteRules
  import O = Outbound

  // ---- What the client has to look at ----

  /** The protocol is spelled in lower case. */
  predicate Spelled(proxy: Json) {
    var protocol := TextAt(proxy, Protocol);
    protocol.Some? && Lowered(protocol.value) == protocol.value
  }

  /** The conditions every document puts on the proxies. */
  predicate Fits(proxies: seq<Json>) {
    && |proxies| <= 64
    && (forall i :: 0 <= i < |proxies| ==> Spelled(proxies[i]))
    && CleanItems(proxies)
  }

  /** The provider JSON outside the proxies that a document carries. */
  predicate CleanObservers(plan: Plan) {
    CleanOption(plan.observatory) && CleanOption(plan.burstObservatory)
  }

  predicate FitsMain(loc: Location, plan: Plan, world: World) {
    && Fits(plan.proxies) && CleanObservers(plan) && CleanItems(Flat(plan.balancers))
    && CleanItems(plan.providerRules) && Clean(DnsJson(loc.rawProfile, world))
  }

  predicate FitsProbe(plan: Plan) {
    && Fits(plan.proxies) && CleanObservers(plan) && CleanItems(Flat(plan.balancers))
    && |Flat(plan.balancers)| <= 64 && DistinctTags(Flat(plan.balancers))
  }

  // ---- File keys in documents ----

  lemma CleanConcat(a: seq<Json>, b: seq<Json>)
    ensures CleanItems(a + b) <==> CleanItems(a) && CleanItems(b)
  {
    hide Clean;
    assert forall i :: 0 <= i < |a| ==> (a + b)[i] == a[i];
    assert forall i :: 0 <= i < |b| ==> (a + b)[|a| + i] == b[i];
  }

  lemma CleanArray(items: seq<Json>)
    ensures Clean(Arr(items)) <==> CleanItems(items)
  {
    CleanIsStructural(Arr(items));
  }

  lemma PlainIsClean(tag: string, protocol: string)
    ensures Clean(PlainOutbound(tag, protocol))
  {
    hide HasFileKey;
    CleanIsStructural(PlainOutbound(tag, protocol));
  }

  lemma SystemOutboundsAreClean()
    ensures CleanItems(SystemOutbounds()) && Clean(PlainOutbound("direct", "freedom"))
  {
    hide HasFileKey, CleanFields, MarkedSockopt, PlainOutbound;
    var settings, stream := Record(One(DomainStrategy, Str("UseIP"))), Record(One(Sockopt, MarkedSockopt()));
    var fields := Put(Put(Put(One(Tag, Str("direct")), Protocol, Str("freedom")), Settings, settings), StreamSettings,
                      stream);
    assert DirectOutbound() == Record(fields);
    PlainIsClean("direct", "freedom");
    PlainIsClean("dns-out", "dns");
    PlainIsClean("block", "blackhole");
  }

  lemma SniffingIsClean()
    ensures Clean(SniffingJson())
  {
    hide HasFileKey, Texts;
    CleanIsStructural(SniffingJson());
  }

  lemma InboundIsClean(tun: R.TunMode, mtu: nat)
    ensures Clean(Arr([InboundJson(tun, mtu)]))
  {
    hide HasFileKey, Texts;
    SniffingIsClean();
    hide SniffingJson;
    CleanIsStructural(InboundJson(tun, mtu).fields[Settings]);
    CleanIsStructural(InboundJson(tun, mtu));
    CleanArray([InboundJson(tun, mtu)]);
  }

  lemma SocksInboundIsClean(tag: string, port: nat)
    ensures Clean(SocksInbound(tag, port))
  {
    hide HasFileKey;
    CleanIsStructural(SocksInbound(tag, port).fields[Settings]);
    CleanIsStructural(SocksInbound(tag, port));
  }

  lemma EverythingIsClean(target: R.ProxyTarget)
    ensures Clean(Obj(Everything(target))) && CleanFields(Everything(target))
  {
    hide HasFileKey, TargetJson, Put, CleanFields;
    assert Everything(target) == Put(Put(TargetJson(target), Type, Str("field")), Network, Str("tcp,udp"));
    CleanIsStructural(Obj(Everything(target)));
  }

  lemma ProbeRuleIsClean(tag: string, target: R.ProxyTarget)
    ensures Clean(ProbeRule(tag, target))
  {
    hide HasFileKey, Everything, Put, CleanFields;
    EverythingIsClean(target);
    CleanIsStructural(Arr([Str(tag)]));
    assert ProbeRule(tag, target) == Record(Put(Everything(target), InboundTag, Arr([Str(tag)])));
  }

  lemma CleanOne(key: Key, value: Json)
    requires !FileKey(key)
    ensures CleanFields(map[key := value]) <==> Clean(value)
  {
    hide Clean;
  }

  lemma MainRoutingIsClean(loc: Location, plan: Plan, before: seq<R.Rule>, after: seq<R.Rule>, world: World)
    requires OwnRules(before) && OwnRules(after)
    ensures Clean(MainRouting(loc, plan, before, after, world)) <==>
            CleanItems(plan.providerRules) && CleanItems(Flat(plan.balancers))
  {
    hide HasFileKey, Clean, CleanItems, CleanFields, RulesJson, RoutingOptions, Maybe, Join;
    var own, rest := RulesJson(before, world), RulesJson(after, world);
    CleanConcat(own + plan.providerRules, rest);
    CleanConcat(own, plan.providerRules);
    var rules := Arr(own + plan.providerRules + rest);
    CleanArray(own + plan.providerRules + rest);
    CleanArray(Flat(plan.balancers));
    EmptyIsClean();
    CleanOne(Rules, rules);
    assert CleanOption(BalancersJson(plan.balancers)) <==> CleanItems(Flat(plan.balancers));
    var head := Join(map[Rules := rules], RoutingOptions(loc.rawProfile));
    assert CleanFields(head) <==> Clean(rules);
    assert head.Keys !! Maybe(Balancers, BalancersJson(plan.balancers)).Keys;
    CleanIsStructural(MainRouting(loc, plan, before, after, world));
  }

  lemma EmptyIsClean()
    ensures CleanItems([])
  {
  }

  lemma ObservedIsClean(sections: map<Key, Json>, plan: Plan)
    requires sections.Keys !! {Observatory, BurstObservatory}
    ensures CleanFields(Observed(sections, plan)) <==> CleanFields(sections) && CleanObservers(plan)
    ensures forall key :: key in sections.Keys ==>
              key in Observed(sections, plan) && Observed(sections, plan)[key] == sections[key]
    ensures Observed(sections, plan).Keys <= sections.Keys + {Observatory, BurstObservatory}
  {
    hide HasFileKey, Clean, CleanFields, Maybe, CleanOption;
    var head := Join(sections, Maybe(Observatory, plan.observatory));
    assert sections.Keys !! Maybe(Observatory, plan.observatory).Keys;
    assert head.Keys !! Maybe(BurstObservatory, plan.burstObservatory).Keys;
  }

  // ---- The main configuration ----

  lemma {:induction false} FilterCount(s: seq<Json>, p: Json -> bool)
    ensures |Filter(s, p)| <= |s|
    ensures |Filter(s, p)| == |s| <==> forall i :: 0 <= i < |s| ==> p(s[i])
  {
    if s != [] {
      FilterCount(s[1..], p);
      assert forall i :: 1 <= i < |s| ==> s[i] == s[1..][i - 1];
    }
  }

  lemma GoodIsProxyIfSpelled(proxy: Json)
    requires GoodProxy(proxy)
    ensures IsProxy(proxy) <==> Spelled(proxy)
  {
    hide Lowered;
    if IsProxy(proxy) {
      LowerCaseIsFixed(TextAt(proxy, Protocol).value);
    }
  }

  /** The three outbounds the daemon insists on. */
  predicate AreSystem(values: seq<Json>) {
    && |values| == 3
    && Is(values[0], "direct", "freedom") && Is(values[1], "dns-out", "dns") && Is(values[2], "block", "blackhole")
  }

  lemma SystemAreNoProxies(values: seq<Json>)
    requires AreSystem(values)
    ensures forall ob :: ob in values ==> !IsProxy(ob)
  {
  }

  lemma SystemTags(values: seq<Json>)
    requires AreSystem(values)
    ensures DistinctTags(values)
    ensures forall ob :: ob in values ==> TagOf(ob) in RESERVED_TAGS
  {
  }

  lemma SystemCounts(values: seq<Json>)
    requires AreSystem(values)
    ensures ExactlyOne(values, "direct", "freedom") && ExactlyOne(values, "dns-out", "dns")
            && ExactlyOne(values, "block", "blackhole")
  {
    hide Filter;
    assert "direct" != "dns-out" && "dns-out" != "block" && "direct" != "block";
    CountOfThree(values, Matching("direct", "freedom"));
    CountOfThree(values, Matching("dns-out", "dns"));
    CountOfThree(values, Matching("block", "blackhole"));
  }

  lemma SystemOutboundFacts()
    ensures AreSystem(SystemOutbounds())
  {
  }

  lemma CountOfThree(s: seq<Json>, p: Json -> bool)
    requires |s| == 3
    ensures |Filter(s, p)| == (if p(s[0]) then 1 else 0) + (if p(s[1]) then 1 else 0) + (if p(s[2]) then 1 else 0)
  {
    var two, one := s[1..], s[2..];
    assert two[0] == s[1] && two[1..] == one && one[0] == s[2] && one[1..] == [];
    assert |Filter(one, p)| == if p(s[2]) then 1 else 0;
    assert |Filter(two, p)| == (if p(s[1]) then 1 else 0) + |Filter(one, p)|;
  }

  lemma SystemAmong(proxies: seq<Json>, tag: string, protocol: string)
    requires GoodProxies(proxies) && tag in RESERVED_TAGS && ExactlyOne(SystemOutbounds(), tag, protocol)
    ensures ExactlyOne(proxies + SystemOutbounds(), tag, protocol)
  {
    FilterConcat(proxies, SystemOutbounds(), Matching(tag, protocol));
    FilterNone(proxies, Matching(tag, protocol));
  }

  lemma MainOutboundsExactly(proxies: seq<Json>)
    requires proxies != [] && GoodProxies(proxies)
    ensures MainOutbounds(proxies + SystemOutbounds()) <==>
            |proxies| <= 64 && forall i :: 0 <= i < |proxies| ==> Spelled(proxies[i])
  {
    hide Lowered, SystemOutbounds;
    var system := SystemOutbounds();
    SystemOutboundFacts();
    assert |system| == 3;
    SystemAreNoProxies(system);
    SystemTags(system);
    SystemCounts(system);
    hide AreSystem, IsProxy;
    FilterConcat(proxies, system, IsProxy);
    FilterNone(system, IsProxy);
    FilterCount(proxies, IsProxy);
    forall i | 0 <= i < |proxies| ensures IsProxy(proxies[i]) <==> Spelled(proxies[i]) {
      GoodIsProxyIfSpelled(proxies[i]);
    }
    SystemAmong(proxies, "direct", "freedom");
    SystemAmong(proxies, "dns-out", "dns");
    SystemAmong(proxies, "block", "blackhole");
    TagsStayDistinct(proxies, system);
  }

  lemma TagsStayDistinct(proxies: seq<Json>, system: seq<Json>)
    requires GoodProxies(proxies) && DistinctTags(system) && forall ob :: ob in system ==> TagOf(ob) in RESERVED_TAGS
    ensures DistinctTags(proxies + system)
  {
    hide IsSupported, Marked, Lowered;
    var all := proxies + system;
    forall i | 0 <= i < |all|
      ensures Tagged(all[i]) && TextAt(all[i], Tag) == Some(TagOf(all[i]))
      ensures TagOf(all[i]) in RESERVED_TAGS <==> i >= |proxies|
    {
      if i >= |proxies| {
        assert all[i] == system[i - |proxies|];
      }
    }
    forall i, j | 0 <= i < j < |all|
      ensures TagOf(all[i]) != TagOf(all[j])
    {
      if i >= |proxies| {
        assert all[i] == system[i - |proxies|] && all[j] == system[j - |proxies|];
      }
    }
  }

  function MainSections(log: Json, dns: Json, inbounds: Json, outbounds: Json, routing: Json): map<Key, Json> {
    map[Log := log, Dns := dns, Inbounds := inbounds, Outbounds := outbounds, Routing := routing]
  }

  lemma MainSectionsAreClean(log: Json, dns: Json, inbounds: Json, outbounds: Json, routing: Json)
    ensures CleanFields(MainSections(log, dns, inbounds, outbounds, routing)) <==>
            Clean(log) && Clean(dns) && Clean(inbounds) && Clean(outbounds) && Clean(routing)
  {
    hide Clean;
    var m := MainSections(log, dns, inbounds, outbounds, routing);
    assert m[Log] == log && m[Dns] == dns && m[Inbounds] == inbounds && m[Outbounds] == outbounds
           && m[Routing] == routing;
  }

  lemma LogIsFine(level: string)
    ensures Clean(LogJson(level)) && LogJson(level).Obj? && LogJson(level).fields.Keys <= {LogLevel}
  {
    CleanIsStructural(LogJson(level));
  }

  lemma InboundExactly(tun: R.TunMode, mtu: nat, expectsTun: bool)
    ensures MainInbound(InboundJson(tun, mtu), expectsTun) <==> expectsTun == tun.XrayNative?
  {
    assert "tun-in"[0] != "socks-in"[0];
    assert TextAt(InboundJson(tun, mtu), Tag) == Some(if tun.XrayNative? then "tun-in" else "socks-in");
  }

  /** Acceptance of a document section by section, with the provider's observatories. */
  lemma SectionsAccepted(log: Json, dns: Json, inbound: Json, outbounds: seq<Json>, routing: Json, plan: Plan,
                         tun: bool)
    requires log.Obj? && log.fields.Keys <= {LogLevel} && Clean(log) && dns.Obj? && routing.Obj?
             && Clean(Arr([inbound]))
    ensures MainAccepted(Obj(Observed(MainSections(log, dns, Arr([inbound]), Arr(outbounds), routing), plan)), tun) <==>
            && MainInbound(inbound, tun) && MainOutbounds(outbounds)
            && Clean(dns) && CleanItems(outbounds) && Clean(routing) && CleanObservers(plan)
  {
    hide HasFileKey, Clean, CleanFields, CleanItems, MainInbound, MainOutbounds, Observed, CleanObservers;
    var sections := MainSections(log, dns, Arr([inbound]), Arr(outbounds), routing);
    var doc := Obj(Observed(sections, plan));
    ObservedIsClean(sections, plan);
    MainSectionsAreClean(log, dns, Arr([inbound]), Arr(outbounds), routing);
    CleanArray(outbounds);
    CleanIsStructural(doc);
    assert sections.Keys == {Log, Dns, Inbounds, Outbounds, Routing};
    assert Get(doc, Log) == Some(log) && Get(doc, Dns) == Some(dns) && Get(doc, Routing) == Some(routing);
    assert ItemsAt(doc, Inbounds) == Some([inbound]) && ItemsAt(doc, Outbounds) == Some(outbounds);
  }

  /** The main configuration is accepted exactly in the mode it was built for, with at most 64 proxies, all
      spelled in lower case, and no file key in any provider JSON it carries. */
  lemma MainExactly(loc: Location, plan: Plan, mode: string, tun: R.TunMode, level: string, mtu: nat,
                    before: seq<R.Rule>, after: seq<R.Rule>, world: World, expectsTun: bool)
    requires GoodPlan(plan) && OwnRules(before) && OwnRules(after)
    ensures var doc := MainDocument(loc, plan, mode, tun, level, mtu, before, after, world);
            MainAccepted(doc, expectsTun) <==>
            FitsMain(loc, plan, world) && expectsTun == (mode != "proxy" && tun == R.XrayNative)
  {
    hide HasFileKey, Clean, CleanItems, MainInbound, MainOutbounds, Observed, CleanObservers, InboundJson, DnsJson,
         MainRouting, SystemOutbounds, GoodProxies, LogJson, MainAccepted, Spelled, UsableBalancers, XrayLogLevel;
    var effective := if mode == "proxy" then R.Tun2socks else tun;
    var inbound := InboundJson(effective, if mode == "proxy" then TUN_MTU else mtu);
    var log, dns := LogJson(XrayLogLevel(level)), DnsJson(loc.rawProfile, world);
    var routing := MainRouting(loc, plan, before, after, world);
    InboundIsClean(effective, if mode == "proxy" then TUN_MTU else mtu);
    InboundExactly(effective, if mode == "proxy" then TUN_MTU else mtu, expectsTun);
    LogIsFine(XrayLogLevel(level));
    MainOutboundsExactly(plan.proxies);
    SystemOutboundsAreClean();
    CleanConcat(plan.proxies, SystemOutbounds());
    MainRoutingIsClean(loc, plan, before, after, world);
    SectionsAreObjects(loc, plan, level, before, after, world);
    SectionsAccepted(log, dns, inbound, plan.proxies + SystemOutbounds(), routing, plan, expectsTun);
  }

  lemma SectionsAreObjects(loc: Location, plan: Plan, level: string, before: seq<R.Rule>, after: seq<R.Rule>,
                           world: World)
    requires OwnRules(before) && OwnRules(after)
    ensures LogJson(XrayLogLevel(level)).Obj? && DnsJson(loc.rawProfile, world).Obj?
    ensures MainRouting(loc, plan, before, after, world).Obj?
  {
  }

  // ---- The loopback probes ----

  lemma GoodIsPingProxyIfSpelled(proxy: Json)
    requires GoodProxy(proxy)
    ensures PingProxy(proxy) <==> Spelled(proxy)
  {
    GoodIsProxyIfSpelled(proxy);
    hide Lowered, IsSupported;
  }

  lemma ProxiesExactly(proxies: seq<Json>)
    requires GoodProxies(proxies)
    ensures PingProxies(proxies) <==> forall i :: 0 <= i < |proxies| ==> Spelled(proxies[i])
  {
    hide Spelled, PingProxy;
    forall i | 0 <= i < |proxies|
      ensures PingProxy(proxies[i]) <==> Spelled(proxies[i])
      ensures Tagged(proxies[i]) && TextAt(proxies[i], Tag) == Some(TagOf(proxies[i]))
    {
      GoodIsPingProxyIfSpelled(proxies[i]);
    }
  }

  function ProbeSections(log: Json, inbounds: Json, outbounds: Json, routing: Json): map<Key, Json> {
    map[Log := log, Inbounds := inbounds, Outbounds := outbounds, Routing := routing]
  }

  lemma ProbeSectionsAreClean(log: Json, inbounds: Json, outbounds: Json, routing: Json)
    ensures CleanFields(ProbeSections(log, inbounds, outbounds, routing)) <==>
            Clean(log) && Clean(inbounds) && Clean(outbounds) && Clean(routing)
  {
    hide Clean;
    var m := ProbeSections(log, inbounds, outbounds, routing);
    assert m[Log] == log && m[Inbounds] == inbounds && m[Outbounds] == outbounds && m[Routing] == routing;
  }

  lemma ProbeOutboundsExactly(proxies: seq<Json>)
    requires proxies != [] && GoodProxies(proxies)
    ensures var all := proxies + [PlainOutbound("direct", "freedom")];
            && (PingOutbounds(all) && CleanItems(all) <==> Fits(proxies))
            && TagSet(all[..|all| - 1]) == Tags(proxies)
  {
    hide Spelled, PingProxies, GoodProxies, Clean;
    var last := PlainOutbound("direct", "freedom");
    var all := proxies + [last];
    assert all[..|all| - 1] == proxies && all[|all| - 1] == last;
    SystemOutboundsAreClean();
    CleanConcat(proxies, [last]);
    ProxiesExactly(proxies);
  }

  /** A probe document is accepted exactly when its proxies fit and its inbounds and routing pass. */
  lemma ShapeExactly(plan: Plan, inbounds: seq<Json>, routing: map<Key, Json>, ports: seq<nat>)
    requires plan.proxies != [] && GoodProxies(plan.proxies)
    ensures PingAccepted(Obj(Observed(ProbeShape(plan.proxies, inbounds, routing).fields, plan)), ports) <==>
            && Fits(plan.proxies) && CleanObservers(plan)
            && LoopbackInbounds(inbounds, ports) && CleanItems(inbounds)
            && PingRouting(Obj(routing), inbounds, Tags(plan.proxies)) && CleanFields(routing)
  {
    hide HasFileKey, Clean, CleanFields, CleanItems, LoopbackInbounds, PingOutbounds, PingRouting, Observed,
         CleanObservers, Fits, GoodProxies, LogJson, PlainOutbound, TagSet, Tags;
    var all := plan.proxies + [PlainOutbound("direct", "freedom")];
    var log := LogJson("warning");
    var sections := ProbeSections(log, Arr(inbounds), Arr(all), Obj(routing));
    var doc := Obj(Observed(sections, plan));
    assert ProbeShape(plan.proxies, inbounds, routing).fields == sections;
    ObservedIsClean(sections, plan);
    ProbeSectionsAreClean(log, Arr(inbounds), Arr(all), Obj(routing));
    CleanArray(inbounds);
    CleanArray(all);
    CleanIsStructural(Obj(routing));
    CleanIsStructural(doc);
    LogIsFine("warning");
    ProbeOutboundsExactly(plan.proxies);
    assert sections.Keys == {Log, Inbounds, Outbounds, Routing};
    assert Get(doc, Log) == Some(log) && Get(doc, Routing) == Some(Obj(routing));
    assert ItemsAt(doc, Inbounds) == Some(inbounds) && ItemsAt(doc, Outbounds) == Some(all);
  }

  function Unobserved(plan: Plan): Plan { plan.(observatory := None, burstObservatory := None) }

  lemma UnobservedAddsNothing(sections: map<Key, Json>, plan: Plan)
    ensures Observed(sections, Unobserved(plan)) == sections
  {
  }

  lemma SocksInboundIsFine(index: nat, ports: seq<nat>, asked: seq<nat>)
    requires index < |ports| == |asked|
    ensures PingInbound(SocksInbound(SocksTag(index), ports[index]), index, asked) <==> asked[index] == ports[index]
    ensures RawTag(SocksInbound(SocksTag(index), ports[index])) == SocksTag(index)
  {
  }

  lemma PingInboundsExactly(ports: seq<nat>, asked: seq<nat>)
    ensures LoopbackInbounds(PingInbounds(ports), asked) <==> asked == ports
    ensures CleanItems(PingInbounds(ports))
  {
    hide PingInbound, SocksInbound, Clean;
    if |asked| == |ports| {
      forall i | 0 <= i < |ports|
        ensures PingInbound(PingInbounds(ports)[i], i, asked) <==> asked[i] == ports[i]
      {
        SocksInboundIsFine(i, ports, asked);
      }
    }
    forall i | 0 <= i < |ports| ensures Clean(PingInbounds(ports)[i]) {
      SocksInboundIsClean(SocksTag(i), ports[i]);
    }
  }

  lemma ProbeRuleIsFine(tag: string, target: R.ProxyTarget, single: bool, proxyTags: set<string>,
                        balancerTags: set<string>)
    requires target.tag in if target.Outbound? then proxyTags else balancerTags
    ensures PingRule(ProbeRule(tag, target), tag, single, proxyTags, balancerTags)
  {
  }

  lemma PingRoutingIsFine(plan: Plan, ports: seq<nat>)
    requires GoodPlan(plan) && |ports| == |plan.proxies|
    ensures var routing := map[Rules := Arr(PingRules(plan.proxies))];
            PingRouting(Obj(routing), PingInbounds(ports), Tags(plan.proxies)) && CleanFields(routing)
  {
    hide PingRule, SocksInbound, ProbeRule, HasFileKey, Tags, IsSupported, Marked, SocksTag, RawTag;
    var rules := PingRules(plan.proxies);
    forall i | 0 <= i < |rules|
      ensures PingRule(rules[i], RawTag(PingInbounds(ports)[i]), |ports| == 1, Tags(plan.proxies), TagSet([]))
      ensures Clean(rules[i])
    {
      var target := R.Outbound(TagOf(plan.proxies[i]));
      TaggedIn(plan.proxies, i);
      SocksInboundIsFine(i, ports, ports);
      ProbeRuleIsFine(SocksTag(i), target, |ports| == 1, Tags(plan.proxies), TagSet([]));
      ProbeRuleIsClean(SocksTag(i), target);
    }
    CleanArray(rules);
  }

  /** The latency document is accepted for the ports it was built for and no others, exactly when the proxies
      fit: at most 64, spelled in lower case, no file key. */
  lemma PingExactly(plan: Plan, ports: seq<nat>, asked: seq<nat>)
    requires GoodPlan(plan) && |ports| == |plan.proxies|
    ensures PingAccepted(PingDocument(plan, ports), asked) <==> asked == ports && Fits(plan.proxies)
  {
    hide PingAccepted, Fits, LoopbackInbounds, CleanItems, PingRouting, PingInbounds, PingRules, GoodProxies,
         UsableBalancers;
    var routing := map[Rules := Arr(PingRules(plan.proxies))];
    ShapeExactly(Unobserved(plan), PingInbounds(ports), routing, asked);
    UnobservedAddsNothing(ProbeShape(plan.proxies, PingInbounds(ports), routing).fields, plan);
    PingInboundsExactly(ports, asked);
    PingRoutingIsFine(plan, ports);
  }

  lemma SocksTagsAreDistinct(i: nat, j: nat)
    requires SocksTag(i) == SocksTag(j)
    ensures i == j
  {
    PrintedDigits(i);
    PrintedDigits(j);
    assert SocksTag(i)[9..] == PrintNat(i) && SocksTag(j)[9..] == PrintNat(j);
  }

  /** Every port measures its own proxy: of all the rules exactly the i-th takes the i-th inbound, and sends it to
      the i-th proxy and to no other. */
  lemma EachPortMeasuresItsProxy(plan: Plan, ports: seq<nat>, i: nat, j: nat)
    requires GoodPlan(plan) && |ports| == |plan.proxies| && i < |ports| && j < |ports|
    ensures var doc := PingDocument(plan, ports);
            var inbounds, rules := ItemsAt(doc, Inbounds).value, ItemsAt(Get(doc, Routing).value, Rules).value;
            && Get(inbounds[i], Port) == Some(Num(ports[i]))
            && (Get(rules[j], InboundTag) == Some(Arr([Get(inbounds[i], Tag).value])) <==> i == j)
            && (Get(rules[i], OutboundTag) == Get(plan.proxies[j], Tag) <==> i == j)
  {
    hide SocksTag, LogJson, PlainOutbound, UsableBalancers, IsSupported, Marked;
    if SocksTag(i) == SocksTag(j) {
      SocksTagsAreDistinct(i, j);
    }
    assert TextAt(plan.proxies[i], Tag) == Some(TagOf(plan.proxies[i]))
           && TextAt(plan.proxies[j], Tag) == Some(TagOf(plan.proxies[j]));
    assert i != j ==> TagOf(plan.proxies[i]) != TagOf(plan.proxies[j]);
    assert Get(PingRules(plan.proxies)[j], InboundTag) == Some(Arr([Str(SocksTag(j))]));
  }

  lemma BalancersExactly(balancers: seq<Json>, proxyTags: set<string>)
    requires UsableBalancers(balancers, proxyTags)
    ensures PingBalancers(balancers, proxyTags) <==> |balancers| <= 64 && DistinctTags(balancers)
  {
    forall i | 0 <= i < |balancers|
      ensures PingBalancer(balancers[i], proxyTags) <==> Tagged(balancers[i])
    {
      assert UsableBalancer(balancers[i], proxyTags);
      SelectionsAgree(ItemsAt(balancers[i], Selector).value, proxyTags);
    }
  }

  lemma SelectionsAgree(selectors: seq<Json>, proxyTags: set<string>)
    ensures SelectsSome(selectors, proxyTags) <==> PicksSome(selectors, proxyTags)
  {
    forall selector ensures SelectsProxy(selector, proxyTags) <==> Picks(selector, proxyTags) {
    }
  }

  lemma ProbeRoutingExactly(plan: Plan, inbounds: seq<Json>)
    requires GoodPlan(plan) && |inbounds| == 1 && RawTag(inbounds[0]) == SocksTag(0)
    ensures var rule := ProbeRule(SocksTag(0), plan.target);
            var routing := Join(map[Rules := Arr([rule])], Maybe(Balancers, BalancersJson(plan.balancers)));
            PingRouting(Obj(routing), inbounds, Tags(plan.proxies)) && CleanFields(routing) <==>
            |Flat(plan.balancers)| <= 64 && DistinctTags(Flat(plan.balancers)) && CleanItems(Flat(plan.balancers))
  {
    hide PingRule, SocksInbound, ProbeRule, HasFileKey, Clean, CleanFields, CleanItems, GoodProxies, SocksTag, RawTag,
         PingBalancers, UsableBalancers, DistinctTags, Tags, TagSet;
    var balancers := Flat(plan.balancers);
    var rule := ProbeRule(SocksTag(0), plan.target);
    var listed := Maybe(Balancers, BalancersJson(plan.balancers));
    var routing := Join(map[Rules := Arr([rule])], listed);
    SameTags(balancers);
    ProbeRuleIsFine(SocksTag(0), plan.target, true, Tags(plan.proxies), TagSet(balancers));
    ProbeRuleIsClean(SocksTag(0), plan.target);
    OneIsClean(rule);
    CleanArray([rule]);
    CleanOne(Rules, Arr([rule]));
    CleanArray(balancers);
    NoBalancers();
    BalancersExactly(balancers, Tags(plan.proxies));
    assert Get(Obj(routing), Balancers) == BalancersJson(plan.balancers);
    assert Flat(AsItems(Get(Obj(routing), Balancers))) == balancers;
    assert ItemsAt(Obj(routing), Rules) == Some([rule]);
    assert map[Rules := Arr([rule])].Keys !! listed.Keys;
    assert CleanFields(routing) <==> CleanItems(balancers);
  }

  lemma SameTags(values: seq<Json>)
    ensures TagSet(values) == Tags(values)
  {
  }

  lemma NoBalancers()
    ensures CleanItems([]) && DistinctTags([])
  {
  }

  lemma OneIsClean(value: Json)
    requires Clean(value)
    ensures CleanItems([value])
  {
  }

  /** The preflight is accepted exactly when, besides, its balancers are at most 64 with distinct non-empty tags,
      and no file key sits in them or in the observatories. */
  lemma ProbeExactly(plan: Plan, asked: seq<nat>)
    requires GoodPlan(plan)
    ensures PingAccepted(ProbeDocument(plan), asked) <==> asked == [PROBE_PORT_BASE] && FitsProbe(plan)
  {
    hide PingAccepted, Fits, LoopbackInbounds, CleanItems, PingRouting, PingInbounds, GoodProxies, UsableBalancers,
         ProbeRule, SocksInbound, Join, Maybe, DistinctTags, Observed, ProbeShape, CleanObservers, CleanFields;
    var rule := ProbeRule(SocksTag(0), plan.target);
    var routing := Join(map[Rules := Arr([rule])], Maybe(Balancers, BalancersJson(plan.balancers)));
    var inbounds := [SocksInbound(SocksTag(0), PROBE_PORT_BASE)];
    SinglePingInbound(PROBE_PORT_BASE);
    ShapeExactly(plan, inbounds, routing, asked);
    PingInboundsExactly([PROBE_PORT_BASE], asked);
    SocksInboundIsFine(0, [PROBE_PORT_BASE], [PROBE_PORT_BASE]);
    ProbeRoutingExactly(plan, inbounds);
  }

  lemma SinglePingInbound(port: nat)
    ensures PingInbounds([port]) == [SocksInbound(SocksTag(0), port)]
  {
  }

  // ---- The probe for an older daemon ----

  lemma {:induction false} FirstSelectedIsATag(selector: string, proxies: seq<Json>)
    requires forall i :: 0 <= i < |proxies| ==> TextAt(proxies[i], Tag).Some?
    ensures FirstSelected(selector, proxies).Some? ==> FirstSelected(selector, proxies).value in Tags(proxies)
  {
    if proxies != [] {
      TaggedIn(proxies, 0);
      FirstSelectedIsATag(selector, proxies[1..]);
      assert forall i :: 0 <= i < |proxies[1..]| ==> proxies[1..][i] == proxies[i + 1];
    }
  }

  lemma {:induction false} AnySelectedIsATag(selectors: seq<Json>, proxies: seq<Json>)
    requires forall i :: 0 <= i < |proxies| ==> TextAt(proxies[i], Tag).Some?
    ensures var found := FirstSelectedByAny(selectors, proxies); found.Some? ==> found.value in Tags(proxies)
  {
    if selectors != [] {
      if selectors[0].Str? {
        FirstSelectedIsATag(selectors[0].text, proxies);
      }
      AnySelectedIsATag(selectors[1..], proxies);
    }
  }

  lemma PingTagIsAProxy(plan: Plan)
    requires GoodPlan(plan)
    ensures PingTag(plan) in Tags(plan.proxies)
  {
    TaggedIn(plan.proxies, 0);
    if plan.target.Balancer? {
      var balancer := Find(Flat(plan.balancers), HasTag(plan.target.tag));
      if balancer.Some? {
        AnySelectedIsATag(Flat(ItemsAt(balancer.value, Selector)), plan.proxies);
      }
    }
  }

  lemma LegacyRuleIsFine(tag: string, inboundTag: string, proxyTags: set<string>)
    requires tag in proxyTags
    ensures PingRule(Obj(Everything(R.Outbound(tag))), inboundTag, true, proxyTags, TagSet([]))
  {
  }

  lemma LegacyRoutingIsFine(tag: string, inbounds: seq<Json>, proxyTags: set<string>)
    requires tag in proxyTags && |inbounds| == 1
    ensures var routing := map[Rules := Arr([Obj(Everything(R.Outbound(tag)))])];
            PingRouting(Obj(routing), inbounds, proxyTags) && CleanFields(routing)
  {
    hide HasFileKey, RawTag, Everything, PingRule;
    var rule := Obj(Everything(R.Outbound(tag)));
    EverythingIsClean(R.Outbound(tag));
    OneIsClean(rule);
    CleanArray([rule]);
    LegacyRuleIsFine(tag, RawTag(inbounds[0]), proxyTags);
  }

  lemma LegacyInboundExactly(port: nat, asked: seq<nat>)
    ensures LoopbackInbounds([SocksInbound("socks-in", port)], asked) <==> asked == [port]
    ensures CleanItems([SocksInbound("socks-in", port)])
  {
    hide HasFileKey;
    SocksInboundIsClean("socks-in", port);
    var inbound := SocksInbound("socks-in", port);
    if |asked| == 1 {
      assert PingInbound(inbound, 0, asked) <==> asked[0] == port;
      assert asked == [asked[0]];
      assert LoopbackInbounds([inbound], asked) ==> PingInbound([inbound][0], 0, asked);
    }
  }

  /** The single-path probe is accepted exactly when the proxies fit, whatever the profile's balancers are. */
  lemma LegacyExactly(plan: Plan, port: nat, asked: seq<nat>)
    requires GoodPlan(plan)
    ensures PingAccepted(LegacyDocument(plan, port), asked) <==> asked == [port] && Fits(plan.proxies)
  {
    hide PingAccepted, Fits, LoopbackInbounds, CleanItems, PingRouting, GoodProxies, UsableBalancers, SocksInbound,
         Observed, CleanFields, PingTag, Everything;
    var rule := Obj(Everything(R.Outbound(PingTag(plan))));
    var inbounds, routing := [SocksInbound("socks-in", port)], map[Rules := Arr([rule])];
    PingTagIsAProxy(plan);
    LegacyRoutingIsFine(PingTag(plan), inbounds, Tags(plan.proxies));
    LegacyInboundExactly(port, asked);
    ShapeExactly(Unobserved(plan), inbounds, routing, asked);
    UnobservedAddsNothing(ProbeShape(plan.proxies, inbounds, routing).fields, plan);
  }

  // ---- Through the daemon's port rewriting ----

  lemma PingPortsRead(plan: Plan, ports: seq<nat>)
    requires |ports| == |plan.proxies| && 1 <= |ports| <= 64
    requires forall i :: 0 <= i < |ports| ==> 1024 <= ports[i] < 0x1_0000
    ensures V.ReadPorts(PingDocument(plan, ports)) == Some(ports)
  {
    hide SocksTag, PingRules, LogJson, PlainOutbound;
    var inbounds := PingInbounds(ports);
    assert forall i :: 0 <= i < |ports| ==> Get(inbounds[i], Port) == Some(Num(ports[i]));
    assert ItemsAt(PingDocument(plan, ports), Inbounds) == Some(inbounds);
    assert V.ReadPorts(PingDocument(plan, ports)).value == ports;
  }

  /** The latency probe end to end: placeholder ports exist exactly for 1 to 64 proxies; the document built with
      them is accepted, and stays accepted on any ports the daemon reserves, which it reads back. */
  lemma PingEndToEnd(plan: Plan, reserved: seq<nat>)
    requires GoodPlan(plan)
    ensures PlaceholderPorts(plan).Some? <==> |plan.proxies| <= 64
    ensures Fits(plan.proxies) && V.GoodPorts(reserved) && V.SixteenBit(reserved) && |reserved| == |plan.proxies| ==>
              var template := PlaceholderPorts(plan).value;
              var doc := PingDocument(plan, template);
              && PingAccepted(doc, template) && V.ReadPorts(doc) == Some(template)
              && V.WithPorts(doc, reserved).Some? && PingAccepted(V.WithPorts(doc, reserved).value, reserved)
              && V.ReadPorts(V.WithPorts(doc, reserved).value) == Some(reserved)
              && V.WithPorts(V.WithPorts(doc, reserved).value, template) == Some(doc)
  {
    hide PingAccepted, PingDocument, V.WithPorts, V.ReadPorts, GoodProxies, UsableBalancers;
    if Fits(plan.proxies) && V.GoodPorts(reserved) && V.SixteenBit(reserved) && |reserved| == |plan.proxies| {
      var template := PlaceholderPorts(plan).value;
      PingExactly(plan, template, template);
      PingPortsRead(plan, template);
      V.PortsAreImmaterial(PingDocument(plan, template), template, reserved);
    }
  }

  lemma ProbePortsRead(plan: Plan)
    ensures V.ReadPorts(ProbeDocument(plan)) == Some([PROBE_PORT_BASE])
  {
    hide SocksTag, ProbeRule, LogJson, PlainOutbound, Maybe;
    var inbound := SocksInbound(SocksTag(0), PROBE_PORT_BASE);
    ProbeInbounds(plan);
    hide ProbeDocument;
    assert Get(inbound, Port) == Some(Num(PROBE_PORT_BASE));
    assert ItemsAt(ProbeDocument(plan), Inbounds) == Some([inbound]);
    assert V.ReadPorts(ProbeDocument(plan)).value == [PROBE_PORT_BASE];
  }

  lemma ProbeInbounds(plan: Plan)
    ensures ItemsAt(ProbeDocument(plan), Inbounds) == Some([SocksInbound(SocksTag(0), PROBE_PORT_BASE)])
  {
    hide SocksTag, ProbeRule, LogJson, PlainOutbound, SocksInbound, Observed;
    var rule := ProbeRule(SocksTag(0), plan.target);
    var routing := Join(map[Rules := Arr([rule])], Maybe(Balancers, BalancersJson(plan.balancers)));
    ObservedIsClean(ProbeShape(plan.proxies, [SocksInbound(SocksTag(0), PROBE_PORT_BASE)], routing).fields, plan);
  }

  /** The preflight end to end. */
  lemma ProbeEndToEnd(plan: Plan, reserved: nat)
    requires GoodPlan(plan) && 1024 <= reserved < 0x1_0000
    ensures V.ReadPorts(ProbeDocument(plan)) == Some([PROBE_PORT_BASE])
    ensures var moved := V.WithPorts(ProbeDocument(plan), [reserved]);
            && moved.Some? && V.ReadPorts(moved.value) == Some([reserved])
            && (PingAccepted(moved.value, [reserved]) <==> FitsProbe(plan))
  {
    hide PingAccepted, ProbeDocument, FitsProbe, V.WithPorts, V.ReadPorts;
    ProbePortsRead(plan);
    ProbeExactly(plan, [PROBE_PORT_BASE]);
    V.PortsAreImmaterial(ProbeDocument(plan), [PROBE_PORT_BASE], [reserved]);
  }

  // ---- From the location ----

  lemma CleanOnTheWay(value: Option<Json>, key: Key)
    requires CleanOption(value)
    ensures CleanOption(Within(value, key))
  {
    hide HasFileKey;
    if value.Some? {
      CleanIsStructural(value.value);
    }
  }

  lemma CleanInList(value: Option<Json>)
    requires CleanOption(value)
    ensures CleanItems(Flat(AsItems(value)))
  {
    hide HasFileKey;
    if value.Some? {
      CleanIsStructural(value.value);
    }
  }

  lemma CleanStream(stream: Option<Json>, preserve: bool)
    requires CleanOption(stream)
    ensures Clean(MarkedStream(stream, preserve))
  {
    hide HasFileKey;
    var fields := FieldsOf(stream);
    if stream.Some? {
      CleanIsStructural(stream.value);
    }
    assert CleanFields(fields);
    if Sockopt in fields {
      CleanIsStructural(fields[Sockopt]);
    }
    var sockopt := Get(MarkedStream(stream, preserve), Sockopt).value;
    CleanIsStructural(sockopt);
    CleanIsStructural(MarkedStream(stream, preserve));
  }

  lemma SanitizedIsClean(outbound: Json, preserve: bool)
    requires Clean(outbound) && Sanitize(outbound, preserve).Done?
    ensures Clean(Sanitize(outbound, preserve).value)
  {
    hide HasFileKey, RefersToFile, Lowered, MarkedStream;
    var ob := Sanitize(outbound, preserve).value;
    CleanIsStructural(outbound);
    CleanIsStructural(ob);
    CleanStream(Get(outbound, StreamSettings), preserve);
    var bound := outbound.fields - {SendThrough};
    var tagged := if preserve then bound else (bound - {ProxySettings})[Tag := Str("proxy")];
    assert CleanFields(tagged) && Lookup(tagged, StreamSettings) == Get(outbound, StreamSettings);
    var stream := MarkedStream(Get(outbound, StreamSettings), preserve);
    assert CleanFields(tagged[StreamSettings := stream]) && CleanFields(tagged - {StreamSettings});
  }

  lemma {:induction false} ProxiesAreClean(outbounds: seq<Json>, n: nat)
    requires n <= |outbounds| && CleanItems(outbounds)
    ensures CleanItems(ProxiesUpTo(outbounds, n))
  {
    hide HasFileKey, Sanitize, Clean;
    if n > 0 {
      ProxiesAreClean(outbounds, n - 1);
      var ob := Sanitize(outbounds[n - 1], true);
      if ob.Done? {
        SanitizedIsClean(outbounds[n - 1], true);
        SanitizedIsGood(outbounds[n - 1], true);
        RetaggedIsClean(ob.value, n - 1);
      }
    }
  }

  lemma RetaggedIsClean(outbound: Json, index: nat)
    requires outbound.Obj? && Clean(outbound)
    ensures Clean(Retagged(outbound, index))
  {
    hide HasFileKey, TagFor;
    CleanIsStructural(outbound);
    CleanIsStructural(Retagged(outbound, index));
  }

  lemma FilteredIsClean(rules: seq<Json>, p: Json -> bool)
    requires CleanItems(rules)
    ensures CleanItems(Filter(rules, p))
  {
    hide Clean;
    FilterMembers(rules, p);
    forall i | 0 <= i < |Filter(rules, p)| ensures Clean(Filter(rules, p)[i]) {
      assert Filter(rules, p)[i] in rules;
    }
  }

  /** No provider JSON of the location has a key the daemon takes for a file. */
  predicate CleanLocation(loc: Location) {
    CleanFields(loc.extra) && CleanOption(loc.rawOutbound) && CleanOption(loc.rawProfile)
  }

  lemma SafeRulesAreClean(profile: Option<Json>, proxies: seq<Json>, balancers: Option<seq<Json>>, world: World)
    requires CleanOption(profile)
    ensures CleanItems(SafeRules(profile, proxies, balancers, world))
  {
    CleanOnTheWay(profile, Routing);
    CleanOnTheWay(Within(profile, Routing), Rules);
    CleanInList(Within(Within(profile, Routing), Rules));
    FilteredIsClean(ProfileRules(profile), Safe(Tags(proxies), Tags(Flat(balancers)), world));
  }

  lemma ProfilePlanIsClean(profile: Json, world: World)
    requires Clean(profile)
    requires var plan := ProfilePlan(profile, world); plan.Done? && plan.value.Some?
    ensures var plan := ProfilePlan(profile, world).value.value;
            && CleanItems(plan.proxies) && CleanItems(plan.providerRules) && CleanItems(Flat(plan.balancers))
            && CleanObservers(plan)
  {
    hide HasFileKey, Clean, CleanItems, SafeRules, ProxiesUpTo, UsableBalancers, TargetOf;
    var plan := ProfilePlan(profile, world).value.value;
    CleanOnTheWay(Some(profile), Outbounds);
    CleanInList(Get(profile, Outbounds));
    ProxiesAreClean(ItemsAt(profile, Outbounds).value, |ItemsAt(profile, Outbounds).value|);
    SafeRulesAreClean(Some(profile), plan.proxies, plan.balancers, world);
    CleanOnTheWay(Some(profile), Routing);
    CleanOnTheWay(Get(profile, Routing), Balancers);
    CleanInList(Within(Get(profile, Routing), Balancers));
    EmptyIsClean();
    CleanOnTheWay(Some(profile), Observatory);
    CleanOnTheWay(Some(profile), BurstObservatory);
  }

  lemma PlanIsClean(loc: Location, world: World)
    requires CleanLocation(loc) && OutboundPlan(loc, world).Done?
    ensures var plan := OutboundPlan(loc, world).value;
            && CleanItems(plan.proxies) && CleanItems(plan.providerRules) && CleanItems(Flat(plan.balancers))
            && CleanObservers(plan)
  {
    hide HasFileKey, Clean, CleanItems, SafeRules, ProfilePlan, Sanitize, Printed;
    var plan := OutboundPlan(loc, world).value;
    if loc.rawProfile.Some? && ProfilePlan(loc.rawProfile.value, world).value.Some? {
      ProfilePlanIsClean(loc.rawProfile.value, world);
    } else {
      var ob := ProxyOutbound(loc).value;
      if loc.rawOutbound.Some? {
        SanitizedIsClean(loc.rawOutbound.value, false);
      } else {
        PrintedOutbound(loc.server, loc.wireguard, loc.extra);
      }
      OneIsClean(ob);
      EmptyIsClean();
      SafeRulesAreClean(loc.rawProfile, [ob], None, world);
    }
  }

  lemma {:induction false} KeptServersAreClean(values: seq<Json>, world: World)
    requires CleanItems(values)
    ensures CleanItems(KeptServers(values, world))
  {
    hide HasFileKey;
    if values != [] {
      KeptServersAreClean(values[1..], world);
      CleanIsStructural(values[0]);
      var kept := KeptServer(values[0], world);
      if kept.Some? {
        CleanIsStructural(kept.value);
      }
    }
  }

  lemma InsertedIsClean(fields: map<Key, Json>, key: Key, value: Json)
    requires CleanFields(fields) && !FileKey(key) && Clean(value)
    ensures CleanFields(OrInsert(fields, key, value)) && CleanFields(fields[key := value])
  {
    hide Clean;
  }

  lemma HostsAreClean(hosts: Option<Json>, usingDefaults: bool)
    requires CleanOption(hosts)
    ensures CleanFields(DnsHosts(hosts, usingDefaults))
  {
    hide HasFileKey, Texts, OrInsert;
    var own := FieldsOf(hosts);
    if hosts.Some? {
      CleanIsStructural(hosts.value);
    }
    assert CleanFields(own);
    hide CleanFields;
    var first, second, third := Other("cloudflare-dns.com"), Other("dns.google"), Other("domain:googleapis.cn");
    assert !FileKey(first) && !FileKey(second) && !FileKey(third);
    InsertedIsClean(own, first, Texts(["1.1.1.1", "1.0.0.1"]));
    var once := OrInsert(own, first, Texts(["1.1.1.1", "1.0.0.1"]));
    InsertedIsClean(once, second, Texts(["8.8.8.8", "8.8.4.4"]));
    InsertedIsClean(if usingDefaults then OrInsert(once, second, Texts(["8.8.8.8", "8.8.4.4"])) else own, third,
                    Str("googleapis.com"));
  }

  lemma DnsFieldsAreClean(own: map<Key, Json>, servers: Json, strategy: string, hosts: Json)
    requires CleanFields(own) && Clean(servers) && Clean(hosts)
    ensures CleanFields(DnsFields(own, servers, strategy, hosts))
  {
    hide CleanFields, HasFileKey, OrInsert;
    InsertedIsClean(own, Servers, servers);
    InsertedIsClean(own[Servers := servers], QueryStrategy, Str(strategy));
    InsertedIsClean(own[Servers := servers][QueryStrategy := Str(strategy)], Hosts, hosts);
    InsertedIsClean(own[Servers := servers][QueryStrategy := Str(strategy)][Hosts := hosts], EnableParallelQuery,
                    Bool(true));
  }

  lemma OwnDnsIsClean(dns: Option<Json>)
    requires CleanOption(dns)
    ensures var fields := FieldsOf(dns) - {ClientIp}; CleanFields(fields) && CleanOption(Lookup(fields, Hosts))
  {
    hide HasFileKey;
    if dns.Some? {
      CleanIsStructural(dns.value);
    }
  }

  lemma DnsIsClean(profile: Option<Json>, world: World)
    requires CleanOption(profile)
    ensures Clean(DnsJson(profile, world))
  {
    hide HasFileKey, Texts, DnsFields, DnsHosts, KeptServers, Chosen, CleanFields, Clean, CleanItems, CleanOption,
         Lookup, FieldsOf;
    var dns := Within(profile, Dns);
    CleanOnTheWay(profile, Dns);
    CleanOnTheWay(dns, Servers);
    CleanInList(Within(dns, Servers));
    KeptServersAreClean(Flat(AsItems(Within(dns, Servers))), world);
    var kept := KeptServers(Flat(AsItems(Within(dns, Servers))), world);
    CleanArray(kept);
    OwnDnsIsClean(dns);
    var own := FieldsOf(dns) - {ClientIp};
    HostsAreClean(Lookup(own, Hosts), kept == []);
    var hosts := Obj(DnsHosts(Lookup(own, Hosts), kept == []));
    CleanIsStructural(hosts);
    CleanIsStructural(DnsJson(profile, world));
    var servers := if kept == [] then Texts(["https://cloudflare-dns.com/dns-query", "https://dns.google/dns-query"])
                   else Arr(kept);
    var strategy := Chosen(AsText(Within(dns, QueryStrategy)),
                           {"UseIP", "UseIPv4", "UseIPv6", "UseIPv4v6", "UseIPv6v4"});
    DnsFieldsAreClean(own, servers, O.Or(strategy, "UseIPv4"), hosts);
  }

  /** Every validated location without file keys in its provider JSON gives documents the daemon accepts, given at
      most 64 proxies with protocols in lower case and at most 64 balancers with distinct non-empty tags. */
  lemma ValidatedIsAccepted(loc: Location, mode: string, level: string, mtu: nat, before: seq<R.Rule>,
                            after: seq<R.Rule>, ports: seq<nat>, world: World)
    requires Fair(world) && ValidateServer(loc, world).Done?
    requires CleanLocation(loc) && (loc.rawOutbound.Some? ==> !RefersToFile(loc.rawOutbound.value))
    requires OwnRules(before) && OwnRules(after)
    ensures OutboundPlan(loc, world).Done?
    ensures var plan := OutboundPlan(loc, world).value;
            && |plan.proxies| <= 64 && (forall i :: 0 <= i < |plan.proxies| ==> Spelled(plan.proxies[i]))
            && |Flat(plan.balancers)| <= 64 && DistinctTags(Flat(plan.balancers)) ==>
              && MainAccepted(MainDocument(loc, plan, mode, R.XrayNative, level, mtu, before, after, world),
                              mode != "proxy")
              && (|ports| == |plan.proxies| ==> PingAccepted(PingDocument(plan, ports), ports))
              && PingAccepted(ProbeDocument(plan), [PROBE_PORT_BASE])
  {
    hide HasFileKey, RefersToFile, ProfilePlan, SafeRules, MainAccepted, PingAccepted, MainDocument, PingDocument,
         ProbeDocument, GoodPlan, CleanObservers, CleanItems, DnsJson, Sanitize, Printed;
    ValidatedHasPlan(loc, world);
    hide OutboundPlan, ValidateServer;
    var plan := OutboundPlan(loc, world).value;
    PlanIsGood(loc, world);
    PlanIsClean(loc, world);
    DnsIsClean(loc.rawProfile, world);
    MainExactly(loc, plan, mode, R.XrayNative, level, mtu, before, after, world, mode != "proxy");
    if |ports| == |plan.proxies| {
      PingExactly(plan, ports, ports);
    }
    ProbeExactly(plan, [PROBE_PORT_BASE]);
  }

  /** Provider JSON with a `certificatePath`. */
  function Pinned(): Json { Obj(map[Protocol := Str("vless"), Other("certificatePath") := Str("/etc/cert")]) }

  lemma PinnedPassesTheClient()
    ensures !RefersToFile(Pinned()) && IsSupported(Pinned())
  {
    LowerCaseIsFixed("vless");
    var key := Lowered("certificatePath");
    assert |key| == 15 && key[14] == 'h' && key[10] == 'e' && key[0] == 'c';
    assert !EndsWith(key, "file") by { assert key[11..][3] == 'h'; }
    assert !EndsWith(key, "filepath") by { assert key[7..][0] == 'c'; }
    assert !ProviderFileKey(Other("certificatePath"));
  }

  /** The client's file check does not cover the daemon's: a location with such JSON is validated and built, and
      every document made from it is refused. */
  lemma ValidatedYetRefused(server: O.Server, w: WireGuard, mode: string, level: string, mtu: nat, port: nat,
                            world: World)
    requires Fair(world)
    ensures var loc := Location(server, w, map[], Some(Pinned()), None);
            var plan := OutboundPlan(loc, world);
            && ValidateServer(loc, world).Done? && plan.Done?
            && !MainAccepted(MainDocument(loc, plan.value, mode, R.XrayNative, level, mtu, [], [], world),
                             mode != "proxy")
            && (|plan.value.proxies| == 1 && !PingAccepted(PingDocument(plan.value, [port]), [port]))
  {
    var loc := Location(server, w, map[], Some(Pinned()), None);
    PinnedPassesTheClient();
    hide RefersToFile, IsSupported, MainAccepted, PingAccepted, MainDocument, PingDocument, SafeRules, Lowered,
         GoodProxies, DnsJson;
    ValidatedHasPlan(loc, world);
    var plan := OutboundPlan(loc, world).value;
    var ob := plan.proxies[0];
    PlanIsGood(loc, world);
    assert Other("certificatePath") in ob.fields && FileKey(Other("certificatePath"));
    CleanIsStructural(ob);
    assert !CleanItems(plan.proxies);
    MainExactly(loc, plan, mode, R.XrayNative, level, mtu, [], [], world, mode != "proxy");
    PingExactly(plan, [port], [port]);
  }
}
