/** What the built documents carry of the provider's DNS section and plan, which proxy stands for a plan, and when a
    probe can be moved to other ports. */
module DocumentLaws {
  import opened Basics
  import opened JsonValues
  import opened OutboundJson
  import opened XrayConfig
  import opened XrayDocuments
  import opened ValidationPorts
  import R = RouteRules
  import W = WrittenRules

  // ---- The DNS section ----

  /** The address a resolver is listed under, if it is one that may be asked. */
  function SafeAddress(server: Json, world: World): Option<string> {
    match server
    case Str(text) => world.dnsAddress(text)
    case Obj(fields) =>
      if Address in fields && fields[Address].Str? then world.dnsAddress(fields[Address].text) else None
    case _ => None
  }

  /** Exactly the safe resolvers stay, under their normalised address, with everything else about them. */
  lemma KeptServerMeans(server: Json, world: World, key: Key)
    ensures KeptServer(server, world).Some? <==> SafeAddress(server, world).Some?
    ensures KeptServer(server, world).Some? ==>
              var kept, address := KeptServer(server, world).value, Str(SafeAddress(server, world).value);
              && (server.Str? <==> kept.Str?)
              && (server.Str? ==> kept == address)
              && (server.Obj? ==> kept.Obj? && Get(kept, Address) == Some(address))
              && (key != Address ==> Get(kept, key) == Get(server, key))
  {
  }

  /** In the provider's order, each on its own account. */
  lemma {:induction false} KeptServersInOrder(before: seq<Json>, server: Json, after: seq<Json>, world: World)
    ensures var kept := KeptServer(server, world);
            KeptServers(before + [server] + after, world)
            == KeptServers(before, world) + (if kept.Some? then [kept.value] else []) + KeptServers(after, world)
    decreases |before|
  {
    hide KeptServer;
    var all := before + [server] + after;
    if before == [] {
      assert all[0] == server && all[1..] == after;
    } else {
      assert all[0] == before[0] && all[1..] == before[1..] + [server] + after;
      KeptServersInOrder(before[1..], server, after, world);
    }
  }

  /** No resolver of the provider is safe exactly when none is kept. */
  lemma {:induction false} NoneKept(servers: seq<Json>, world: World)
    ensures KeptServers(servers, world) == [] <==>
            forall i :: 0 <= i < |servers| ==> SafeAddress(servers[i], world).None?
    decreases |servers|
  {
    hide SafeAddress, KeptServer;
    if servers != [] {
      KeptServerMeans(servers[0], world, Address);
      NoneKept(servers[1..], world);
      assert forall i :: 1 <= i < |servers| ==> servers[i] == servers[1..][i - 1];
    }
  }

  const STRATEGIES := {"UseIP", "UseIPv4", "UseIPv6", "UseIPv4v6", "UseIPv6v4"}

  /** The section is the provider's, key by key, but for the client address, which goes, and these. */
  lemma DnsSection(profile: Option<Json>, world: World, key: Key)
    ensures var own, dns := Within(profile, Dns), DnsJson(profile, world);
            && dns.Obj?
            && Get(dns, ClientIp) == None
            && (key !in {ClientIp, Servers, QueryStrategy, Hosts, EnableParallelQuery} ==>
                  Get(dns, key) == Within(own, key))
            && Get(dns, EnableParallelQuery)
               == if Within(own, EnableParallelQuery).Some? then Within(own, EnableParallelQuery) else Some(Bool(true))
  {
    var fields, servers, strategy, hosts := DnsParts(profile, world);
    FieldsMean(fields, servers, strategy, hosts, key);
    FieldsMean(fields, servers, strategy, hosts, ClientIp);
    FieldsMean(fields, servers, strategy, hosts, EnableParallelQuery);
    hide DnsJson, DnsFields;
  }

  lemma DnsParts(profile: Option<Json>, world: World)
    returns (fields: map<Key, Json>, servers: Json, strategy: string, hosts: Json)
    ensures fields == FieldsOf(Within(profile, Dns)) - {ClientIp}
    ensures DnsJson(profile, world) == Obj(DnsFields(fields, servers, strategy, hosts))
  {
    hide KeptServers, DnsHosts, Chosen, DnsFields;
    fields := FieldsOf(Within(profile, Dns)) - {ClientIp};
    var written := DnsJson(profile, world);
    servers, strategy, hosts :| written == Obj(DnsFields(fields, servers, strategy, hosts));
  }

  lemma FieldsMean(fields: map<Key, Json>, servers: Json, strategy: string, hosts: Json, key: Key)
    ensures key !in {Servers, QueryStrategy, Hosts, EnableParallelQuery} ==>
              Lookup(DnsFields(fields, servers, strategy, hosts), key) == Lookup(fields, key)
    ensures Lookup(DnsFields(fields, servers, strategy, hosts), EnableParallelQuery)
            == if EnableParallelQuery in fields then Some(fields[EnableParallelQuery]) else Some(Bool(true))
  {
  }

  /** One of the five strategies is always set: the provider's, if it is one of them. */
  lemma DnsStrategy(profile: Option<Json>, world: World)
    ensures var own, dns := AsText(Within(Within(profile, Dns), QueryStrategy)), DnsJson(profile, world);
            TextAt(dns, QueryStrategy) == if own.Some? && own.value in STRATEGIES then own else Some("UseIPv4")
  {
    hide KeptServers, DnsHosts;
  }

  lemma DnsServers(profile: Option<Json>, world: World)
    ensures var listed, dns := Flat(AsItems(Within(Within(profile, Dns), Servers))), DnsJson(profile, world);
            && ((exists i :: 0 <= i < |listed| && SafeAddress(listed[i], world).Some?) ==>
                  ItemsAt(dns, Servers) == Some(KeptServers(listed, world)))
            && ((forall i :: 0 <= i < |listed| ==> SafeAddress(listed[i], world).None?) ==>
                  ItemsAt(dns, Servers)
                  == Some([Str("https://cloudflare-dns.com/dns-query"), Str("https://dns.google/dns-query")]))
  {
    NoneKept(Flat(AsItems(Within(Within(profile, Dns), Servers))), world);
    TwoTexts("https://cloudflare-dns.com/dns-query", "https://dns.google/dns-query");
    hide KeptServers, DnsHosts, SafeAddress, Chosen, Texts;
  }

  function Both(a: string, b: string): Json { Arr([Str(a), Str(b)]) }

  lemma TwoTexts(a: string, b: string)
    ensures Texts([a, b]) == Both(a, b)
  {
  }

  /** Every host the provider names keeps its address; the bootstrap of the two default resolvers is added when they are
      used, and nothing but that and one alias is ever added. */
  function HostEntry(own: Option<Json>, defaults: bool, host: Key): Option<Json> {
    if Within(own, host).Some? then Within(own, host)
    else if defaults && host == Other("cloudflare-dns.com") then Some(Both("1.1.1.1", "1.0.0.1"))
    else if defaults && host == Other("dns.google") then Some(Both("8.8.8.8", "8.8.4.4"))
    else if host == Other("domain:googleapis.cn") then Some(Str("googleapis.com"))
    else None
  }

  lemma DnsHostsMean(profile: Option<Json>, world: World, host: Key)
    ensures var dns := Within(profile, Dns);
            var own, servers := Within(dns, Hosts), Flat(AsItems(Within(dns, Servers)));
            var none := forall i :: 0 <= i < |servers| ==> SafeAddress(servers[i], world).None?;
            Within(Get(DnsJson(profile, world), Hosts), host)
            == HostEntry(own, none, host)
  {
    var dns := Within(profile, Dns);
    var kept := KeptServers(Flat(AsItems(Within(dns, Servers))), world);
    NoneKept(Flat(AsItems(Within(dns, Servers))), world);
    HostsMean(Within(dns, Hosts), kept == [], host);
    assert Get(DnsJson(profile, world), Hosts) == Some(Obj(DnsHosts(Within(dns, Hosts), kept == []))) by {
      hide KeptServers, SafeAddress, Chosen, DnsHosts;
    }
    hide KeptServers, SafeAddress, Chosen, DnsHosts, DnsJson, HostEntry;
  }

  lemma HostsMean(own: Option<Json>, defaults: bool, host: Key)
    ensures Lookup(DnsHosts(own, defaults), host)
            == HostEntry(own, defaults, host)
  {
    TwoTexts("1.1.1.1", "1.0.0.1");
    TwoTexts("8.8.8.8", "8.8.4.4");
    var a, b, c := Other("cloudflare-dns.com"), Other("dns.google"), Other("domain:googleapis.cn");
    Added(FieldsOf(own), defaults, a, Texts(["1.1.1.1", "1.0.0.1"]), b, Texts(["8.8.8.8", "8.8.4.4"]),
          c, Str("googleapis.com"), host);
    hide Texts, OrInsert, Both;
  }

  /** Of three entries, the first two only if wanted; none replaces what is there. */
  lemma Added(fields: map<Key, Json>, wanted: bool, a: Key, va: Json, b: Key, vb: Json, c: Key, vc: Json, host: Key)
    ensures var some := if wanted then OrInsert(OrInsert(fields, a, va), b, vb) else fields;
            Lookup(OrInsert(some, c, vc), host)
            == if host in fields then Some(fields[host])
               else if wanted && host == a then Some(va)
               else if wanted && host == b then Some(vb)
               else if host == c then Some(vc)
               else None
  {
    Inserted(fields, a, va, host);
    Inserted(OrInsert(fields, a, va), b, vb, host);
    Inserted(if wanted then OrInsert(OrInsert(fields, a, va), b, vb) else fields, c, vc, host);
    hide OrInsert;
  }

  lemma Inserted(fields: map<Key, Json>, key: Key, value: Json, asked: Key)
    ensures Lookup(OrInsert(fields, key, value), asked)
            == if asked in fields then Some(fields[asked]) else if asked == key then Some(value) else None
  {
  }

  // ---- The main document ----

  /** Everything goes in: the plan's proxies first, so that the first of them is Xray's default; the observatories the
      provider has and no other; the device with the MTU asked for; and a log level Xray knows. */
  lemma MainCarries(loc: Location, plan: Plan, mode: string, tun: R.TunMode, level: string, mtu: nat,
                    before: seq<R.Rule>, after: seq<R.Rule>, world: World)
    requires OwnRules(before) && OwnRules(after)
    ensures var doc := MainDocument(loc, plan, mode, tun, level, mtu, before, after, world);
            && ItemsAt(doc, Outbounds) == Some(plan.proxies + SystemOutbounds())
            && Get(doc, Observatory) == plan.observatory
            && Get(doc, BurstObservatory) == plan.burstObservatory
            && Get(doc, Dns) == Some(DnsJson(loc.rawProfile, world))
            && Get(doc, Inbounds)
               == Some(Arr([if mode == "proxy" then InboundJson(R.Tun2socks, TUN_MTU) else InboundJson(tun, mtu)]))
            && Within(Get(doc, Log), LogLevel) == Some(Str(XrayLogLevel(level)))
  {
    hide DnsJson, InboundJson, SystemOutbounds, RulesJson, MainRouting, XrayLogLevel, Observed;
    var inbound := if mode == "proxy" then InboundJson(R.Tun2socks, TUN_MTU) else InboundJson(tun, mtu);
    var sections := map[Log := LogJson(XrayLogLevel(level)), Dns := DnsJson(loc.rawProfile, world),
                        Inbounds := Arr([inbound]), Outbounds := Arr(plan.proxies + SystemOutbounds()),
                        Routing := MainRouting(loc, plan, before, after, world)];
    assert MainDocument(loc, plan, mode, tun, level, mtu, before, after, world) == Obj(Observed(sections, plan));
    ObservedMeans(sections, plan);
    hide MainDocument;
    W.SectionStays(sections, plan, Log);
    W.SectionStays(sections, plan, Dns);
    W.SectionStays(sections, plan, Inbounds);
    W.SectionStays(sections, plan, Outbounds);
  }

  lemma ObservedMeans(sections: map<Key, Json>, plan: Plan)
    requires Observatory !in sections && BurstObservatory !in sections
    ensures var doc := Obj(Observed(sections, plan));
            Get(doc, Observatory) == plan.observatory && Get(doc, BurstObservatory) == plan.burstObservatory
  {
  }

  lemma LevelIsKnown(level: string)
    ensures XrayLogLevel(level) in {"debug", "info", "warning", "error", "none"}
    ensures level in {"debug", "info", "warning", "error", "none"} ==> XrayLogLevel(level) == level
    ensures level !in {"debug", "info", "warning", "error", "none"} ==> XrayLogLevel(level) == "warning"
  {
  }

  predicate SniffsNames(inbound: Json) {
    var sniffing := Get(inbound, Sniffing);
    && Within(sniffing, Enabled) == Some(Bool(true)) && Within(sniffing, RouteOnly) == Some(Bool(true))
    && Within(sniffing, DestOverride) == Some(Arr([Str("http"), Str("tls"), Str("quic")]))
  }

  /** The device of the tunnel with the MTU asked for, or SOCKS with UDP and without login; both look for names, to
      route by them alone. */
  lemma InboundMeans(mtu: nat)
    ensures var inbound := InboundJson(R.XrayNative, mtu);
            && Within(Get(inbound, Settings), Mtu) == Some(Num(mtu))
            && Within(Get(inbound, Settings), Name) == Some(Str("varmlen0")) && SniffsNames(inbound)
    ensures var inbound := InboundJson(R.Tun2socks, mtu);
            && Within(Get(inbound, Settings), Udp) == Some(Bool(true))
            && Within(Get(inbound, Settings), Auth) == Some(Str("noauth")) && SniffsNames(inbound)
  {
    ThreeTexts("http", "tls", "quic");
    hide Texts;
  }

  lemma ThreeTexts(a: string, b: string, c: string)
    ensures Texts([a, b, c]) == Arr([Str(a), Str(b), Str(c)])
  {
  }

  /** What leaves directly leaves under the dial mark, so that it does not come back into the tunnel. */
  lemma DirectLeavesMarked()
    ensures var direct := SystemOutbounds()[0];
            && Get(direct, Tag) == Some(Str("direct")) && Marked(direct)
            && Within(Get(direct, Settings), DomainStrategy) == Some(Str("UseIP"))
  {
  }

  predicate OneOf(value: Option<Json>, allowed: set<string>) {
    value.Some? && value.value.Str? && value.value.text in allowed
  }

  /** Of the provider's routing the strategy and the matcher stay if they are known ones, and the balancers. */
  lemma RoutingMeans(loc: Location, plan: Plan, before: seq<R.Rule>, after: seq<R.Rule>, world: World)
    requires OwnRules(before) && OwnRules(after)
    ensures var own, routing := Within(loc.rawProfile, Routing), MainRouting(loc, plan, before, after, world);
            var strategy, matcher := Within(own, DomainStrategy), Within(own, DomainMatcher);
            && Get(routing, DomainStrategy)
               == (if OneOf(strategy, {"AsIs", "IPIfNonMatch", "IPOnDemand"}) then strategy else None)
            && Get(routing, DomainMatcher) == (if OneOf(matcher, {"linear", "hybrid"}) then matcher else None)
            && ItemsAt(routing, Balancers) == plan.balancers
  {
    hide RulesJson, RoutingOptions;
    OptionsMean(loc.rawProfile);
  }

  lemma OptionsMean(profile: Option<Json>)
    ensures var own, options := Within(profile, Routing), RoutingOptions(profile);
            var strategy, matcher := Within(own, DomainStrategy), Within(own, DomainMatcher);
            && Lookup(options, DomainStrategy)
               == (if OneOf(strategy, {"AsIs", "IPIfNonMatch", "IPOnDemand"}) then strategy else None)
            && Lookup(options, DomainMatcher) == (if OneOf(matcher, {"linear", "hybrid"}) then matcher else None)
            && Balancers !in options && Rules !in options
  {
  }

  // ---- The probes ----

  /** A location of up to 64 proxies is measured on consecutive loopback ports from 20810. */
  lemma PlaceholdersAreConsecutive(plan: Plan)
    requires plan.proxies != []
    ensures PlaceholderPorts(plan).Some? <==> |plan.proxies| <= 64
    ensures PlaceholderPorts(plan).Some? ==>
              && |PlaceholderPorts(plan).value| == |plan.proxies|
              && forall i :: 0 <= i < |plan.proxies| ==> PlaceholderPorts(plan).value[i] == 20810 + i
  {
  }

  /** A rule that sends all of one inbound, or of any if it names none, to the target. */
  predicate SendsAll(rule: Json, target: R.ProxyTarget) {
    && Get(rule, Type) == Some(Str("field")) && Get(rule, Network) == Some(Str("tcp,udp"))
    && Get(rule, OutboundTag) == (if target.Outbound? then Some(Str(target.tag)) else None)
    && Get(rule, BalancerTag) == (if target.Balancer? then Some(Str(target.tag)) else None)
    && (forall key :: key in {Domain, Process, Ip, Port, Source, SourcePort, User, Attrs, Protocol} ==>
          Get(rule, key) == None)
  }

  predicate OneRuleTo(routing: Option<Json>, target: R.ProxyTarget) {
    var rules := AsItems(Within(routing, Rules));
    rules.Some? && |rules.value| == 1 && SendsAll(rules.value[0], target)
  }

  /** The preflight goes the way of the plan, */
  lemma PreflightFollowsThePlan(plan: Plan)
    ensures var routing := Get(ProbeDocument(plan), Routing);
            OneRuleTo(routing, plan.target) && AsItems(Within(routing, Balancers)) == plan.balancers
  {
    hide SendsAll, ProbeDocument, ProbeRule, SocksTag;
    PreflightRouting(plan);
    ProbeRuleSends(SocksTag(0), plan.target);
  }

  /** and the older probe by the proxy that stands for it. */
  lemma LegacyFollowsItsProxy(plan: Plan, port: nat)
    requires plan.proxies != []
    ensures OneRuleTo(Get(LegacyDocument(plan, port), Routing), R.Outbound(PingTag(plan)))
  {
    hide PingTag, SendsAll, LegacyDocument, Everything;
    LegacyRouting(plan, port);
    EverythingIsSent(R.Outbound(PingTag(plan)));
  }

  lemma LegacyRouting(plan: Plan, port: nat)
    requires plan.proxies != []
    ensures Within(Get(LegacyDocument(plan, port), Routing), Rules)
            == Some(Arr([Obj(Everything(R.Outbound(PingTag(plan))))]))
  {
    hide PingTag, SocksInbound, PlainOutbound, LogJson, Everything;
  }

  lemma PreflightRouting(plan: Plan)
    ensures var routing := Get(ProbeDocument(plan), Routing);
            && Within(routing, Rules) == Some(Arr([ProbeRule(SocksTag(0), plan.target)]))
            && AsItems(Within(routing, Balancers)) == plan.balancers
  {
    hide SocksInbound, PlainOutbound, LogJson, ProbeRule, Observed;
    var rule := ProbeRule(SocksTag(0), plan.target);
    var routing := Join(map[Rules := Arr([rule])], Maybe(Balancers, BalancersJson(plan.balancers)));
    var shape := ProbeShape(plan.proxies, [SocksInbound(SocksTag(0), PROBE_PORT_BASE)], routing);
    W.SectionStays(shape.fields, plan, Routing);
  }

  lemma EverythingIsSent(target: R.ProxyTarget)
    ensures SendsAll(Obj(Everything(target)), target)
  {
  }

  lemma ProbeRuleSends(tag: string, target: R.ProxyTarget)
    ensures SendsAll(ProbeRule(tag, target), target)
  {
    hide Everything;
    var every, rule := Obj(Everything(target)), ProbeRule(tag, target);
    EverythingIsSent(target);
    assert forall key :: key != InboundTag ==> Get(rule, key) == Get(every, key);
    forall key | key in {Domain, Process, Ip, Port, Source, SourcePort, User, Attrs, Protocol}
      ensures Get(rule, key) == None
    {
      assert Get(every, key) == None;
    }
  }

  // ---- The proxy that stands for a plan ----

  /** Selector `k` takes proxy `m`, the first it fits, and no selector before it fits any. */
  predicate Takes(selectors: seq<Json>, proxies: seq<Json>, k: nat, m: nat) {
    && k < |selectors| && m < |proxies|
    && Fits(selectors[k], proxies[m])
    && (forall j :: 0 <= j < m ==> !Fits(selectors[k], proxies[j]))
    && (forall i, j :: 0 <= i < k && 0 <= j < |proxies| ==> !Fits(selectors[i], proxies[j]))
  }

  predicate Fits(selector: Json, proxy: Json) {
    selector.Str? && |selector.text| <= |TagOf(proxy)| && TagOf(proxy)[..|selector.text|] == selector.text
  }

  predicate FirstWithTag(balancers: seq<Json>, tag: string, b: nat) {
    && b < |balancers| && Get(balancers[b], Tag) == Some(Str(tag))
    && forall i :: 0 <= i < b ==> Get(balancers[i], Tag) != Some(Str(tag))
  }

  predicate FallsBackOn(balancer: Json, proxies: seq<Json>, tag: string) {
    && Get(balancer, FallbackTag) == Some(Str(tag))
    && exists i :: 0 <= i < |proxies| && Get(proxies[i], Tag) == Some(Str(tag))
  }

  lemma {:induction false} FirstSelectedMeans(selector: string, proxies: seq<Json>, m: nat)
    requires m < |proxies| && Fits(Str(selector), proxies[m])
    requires forall j :: 0 <= j < m ==> !Fits(Str(selector), proxies[j])
    ensures FirstSelected(selector, proxies) == Some(TagOf(proxies[m]))
    decreases m
  {
    hide TagOf;
    if m > 0 {
      assert !Fits(Str(selector), proxies[0]);
      assert proxies[1..][m - 1] == proxies[m];
      FirstSelectedMeans(selector, proxies[1..], m - 1);
    }
  }

  lemma {:induction false} NoneSelected(selector: string, proxies: seq<Json>)
    requires forall j :: 0 <= j < |proxies| ==> !Fits(Str(selector), proxies[j])
    ensures FirstSelected(selector, proxies) == None
    decreases |proxies|
  {
    hide TagOf;
    if proxies != [] {
      assert !Fits(Str(selector), proxies[0]);
      NoneSelected(selector, proxies[1..]);
    }
  }

  lemma FitsIsText(selector: Json, proxy: Json)
    requires Fits(selector, proxy)
    ensures selector.Str?
  {
  }

  lemma {:induction false} SelectedByAny(selectors: seq<Json>, proxies: seq<Json>, k: nat, m: nat)
    requires Takes(selectors, proxies, k, m)
    ensures FirstSelectedByAny(selectors, proxies) == Some(TagOf(proxies[m]))
    decreases k
  {
    hide TagOf, Fits, FirstSelected;
    FitsIsText(selectors[k], proxies[m]);
    if k == 0 {
      FirstSelectedMeans(selectors[0].text, proxies, m);
    } else {
      if selectors[0].Str? {
        NoneSelected(selectors[0].text, proxies);
      }
      assert Takes(selectors[1..], proxies, k - 1, m);
      SelectedByAny(selectors[1..], proxies, k - 1, m);
    }
  }

  lemma {:induction false} NoneSelectedByAny(selectors: seq<Json>, proxies: seq<Json>)
    requires forall i, j :: 0 <= i < |selectors| && 0 <= j < |proxies| ==> !Fits(selectors[i], proxies[j])
    ensures FirstSelectedByAny(selectors, proxies) == None
    decreases |selectors|
  {
    hide Fits, FirstSelected;
    if selectors != [] {
      if selectors[0].Str? {
        NoneSelected(selectors[0].text, proxies);
      }
      NoneSelectedByAny(selectors[1..], proxies);
    }
  }

  lemma {:induction false} FoundFirst(balancers: seq<Json>, tag: string, b: nat)
    requires FirstWithTag(balancers, tag, b)
    ensures Find(balancers, HasTag(tag)) == Some(balancers[b])
    decreases b
  {
    if b > 0 {
      assert Get(balancers[0], Tag) != Some(Str(tag));
      assert FirstWithTag(balancers[1..], tag, b - 1);
      FoundFirst(balancers[1..], tag, b - 1);
    }
  }

  lemma {:induction false} NotFound(balancers: seq<Json>, tag: string)
    requires forall i :: 0 <= i < |balancers| ==> Get(balancers[i], Tag) != Some(Str(tag))
    ensures Find(balancers, HasTag(tag)) == None
    decreases |balancers|
  {
    if balancers != [] {
      assert Get(balancers[0], Tag) != Some(Str(tag));
      NotFound(balancers[1..], tag);
    }
  }

  /** An outbound stands for itself. */
  lemma PingTagOfOutbound(plan: Plan)
    requires plan.proxies != [] && plan.target.Outbound?
    ensures PingTag(plan) == plan.target.tag
  {
  }

  /** A balancer is stood for by its fallback if that is a proxy. */
  lemma PingTagFallsBack(plan: Plan, b: nat, tag: string)
    requires plan.proxies != [] && plan.target.Balancer?
    requires FirstWithTag(Flat(plan.balancers), plan.target.tag, b)
    requires FallsBackOn(Flat(plan.balancers)[b], plan.proxies, tag)
    ensures PingTag(plan) == tag
  {
    FoundFirst(Flat(plan.balancers), plan.target.tag, b);
    FallbackIsNamed(Flat(plan.balancers)[b], plan.proxies);
    hide Tags, Find;
  }

  /** Else by the first proxy that its first fitting selector fits. */
  lemma PingTagSelected(plan: Plan, b: nat, k: nat, m: nat)
    requires plan.proxies != [] && plan.target.Balancer?
    requires FirstWithTag(Flat(plan.balancers), plan.target.tag, b)
    requires forall tag :: !FallsBackOn(Flat(plan.balancers)[b], plan.proxies, tag)
    requires Takes(Flat(ItemsAt(Flat(plan.balancers)[b], Selector)), plan.proxies, k, m)
    ensures PingTag(plan) == TagOf(plan.proxies[m])
  {
    var balancer := Flat(plan.balancers)[b];
    FoundFirst(Flat(plan.balancers), plan.target.tag, b);
    FallbackIsNamed(balancer, plan.proxies);
    SelectedByAny(Flat(ItemsAt(balancer, Selector)), plan.proxies, k, m);
    hide Tags, Find, Takes, FirstSelectedByAny, TagOf;
  }

  lemma FallbackIsNamed(balancer: Json, proxies: seq<Json>)
    ensures Names(TextAt(balancer, FallbackTag), Tags(proxies)) <==> exists tag :: FallsBackOn(balancer, proxies, tag)
    ensures forall tag :: FallsBackOn(balancer, proxies, tag) ==> TextAt(balancer, FallbackTag) == Some(tag)
  {
    var fallback := TextAt(balancer, FallbackTag);
    if Names(fallback, Tags(proxies)) {
      var i :| 0 <= i < |proxies| && TextAt(proxies[i], Tag) == fallback;
      assert FallsBackOn(balancer, proxies, fallback.value);
    }
  }

  /** Without such a balancer, or with one that fits no proxy and falls back on none, it is the first proxy. */
  lemma PingTagOtherwise(plan: Plan)
    requires plan.proxies != [] && plan.target.Balancer?
    requires forall b: nat :: FirstWithTag(Flat(plan.balancers), plan.target.tag, b) ==>
               var balancer := Flat(plan.balancers)[b];
               && (forall tag :: !FallsBackOn(balancer, plan.proxies, tag))
               && (forall k: nat, m: nat :: !Takes(Flat(ItemsAt(balancer, Selector)), plan.proxies, k, m))
    ensures PingTag(plan) == TagOf(plan.proxies[0])
  {
    var balancers, tag := Flat(plan.balancers), plan.target.tag;
    if b :| 0 <= b < |balancers| && Get(balancers[b], Tag) == Some(Str(tag)) {
      var first := FirstIn(balancers, tag, b);
      FoundFirst(balancers, tag, first);
      FallbackIsNamed(balancers[first], plan.proxies);
      NothingTaken(Flat(ItemsAt(balancers[first], Selector)), plan.proxies);
    } else {
      NotFound(balancers, tag);
    }
  }

  lemma {:induction false} FirstIn(balancers: seq<Json>, tag: string, b: nat) returns (first: nat)
    requires b < |balancers| && Get(balancers[b], Tag) == Some(Str(tag))
    ensures FirstWithTag(balancers, tag, first)
    decreases b
  {
    if i :| 0 <= i < b && Get(balancers[i], Tag) == Some(Str(tag)) {
      first := FirstIn(balancers, tag, i);
    } else {
      first := b;
    }
  }

  /** What no pair takes, no selector fits. */
  lemma NothingTaken(selectors: seq<Json>, proxies: seq<Json>)
    requires forall k: nat, m: nat :: !Takes(selectors, proxies, k, m)
    ensures FirstSelectedByAny(selectors, proxies) == None
  {
    if i, j :| 0 <= i < |selectors| && 0 <= j < |proxies| && Fits(selectors[i], proxies[j]) {
      var k, m := FirstTaken(selectors, proxies, i, j);
      assert false;
    } else {
      NoneSelectedByAny(selectors, proxies);
    }
  }

  lemma {:induction false} FirstTaken(selectors: seq<Json>, proxies: seq<Json>, i: nat, j: nat) returns (k: nat, m: nat)
    requires i < |selectors| && j < |proxies| && Fits(selectors[i], proxies[j])
    ensures Takes(selectors, proxies, k, m)
    decreases i, j
  {
    hide Fits;
    if i', j' :| 0 <= i' < i && 0 <= j' < |proxies| && Fits(selectors[i'], proxies[j']) {
      k, m := FirstTaken(selectors, proxies, i', j');
    } else if j' :| 0 <= j' < j && Fits(selectors[i], proxies[j']) {
      k, m := FirstTaken(selectors, proxies, i, j');
    } else {
      k, m := i, j;
    }
  }

  // ---- Moving a probe to other ports ----

  /** A probe moves to ports of sixteen bits exactly when there is one for each inbound, no two are the same, and the
      moved document can be read. */
  lemma MovesExactly(doc: Json, ports: seq<nat>)
    requires SixteenBit(ports) && ItemsAt(doc, Inbounds).Some?
    ensures var inbounds := ItemsAt(doc, Inbounds).value;
            WithPorts(doc, ports).Some? <==>
            && |inbounds| == |ports|
            && ReadPorts(WithInbounds(doc, SetPorts(inbounds, ports))) == Some(ports)
            && forall a, b :: 0 <= a < b < |ports| ==> ports[a] != ports[b]
  {
    var inbounds := ItemsAt(doc, Inbounds).value;
    if |inbounds| == |ports| {
      var moved := SetPorts(inbounds, ports);
      if WithPorts(doc, ports).Some? {
        PortsReadBack(doc, ports);
      } else if ReadPorts(WithInbounds(doc, moved)) == Some(ports) {
        ReadAreGood(WithInbounds(doc, moved), ports);
        hide ReadPorts, SetPorts;
      } else {
        hide ReadPorts, SetPorts;
      }
    }
  }

  lemma ReadAreGood(doc: Json, ports: seq<nat>)
    requires ReadPorts(doc) == Some(ports)
    ensures 1 <= |ports| <= 64 && forall i :: 0 <= i < |ports| ==> 1024 <= ports[i] < 65536
  {
    var inbounds := ItemsAt(doc, Inbounds).value;
    forall i | 0 <= i < |ports| ensures 1024 <= ports[i] < 65536 {
      assert UsablePort(Get(inbounds[i], Port));
    }
  }

  /** The move touches nothing but the ports. */
  lemma MoveKeeps(doc: Json, ports: seq<nat>, key: Key, i: nat)
    requires WithPorts(doc, ports).Some?
    ensures var moved := WithPorts(doc, ports).value;
            && (key != Inbounds ==> Get(moved, key) == Get(doc, key))
            && ItemsAt(moved, Inbounds).Some?
            && |ItemsAt(moved, Inbounds).value| == |ports| == |ItemsAt(doc, Inbounds).value|
            && (i < |ports| && key != Port ==>
                  Get(ItemsAt(moved, Inbounds).value[i], key) == Get(ItemsAt(doc, Inbounds).value[i], key))
  {
    hide GoodPorts;
  }
}
