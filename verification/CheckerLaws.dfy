/** What the daemon's check lets through, told in terms of the documents alone. */
module CheckerLaws {
  import opened Basics
  import opened Text
  import opened JsonValues
  import opened ConfigChecker

  // ---- File keys, by the way to them ----

  /** One step into a document. */
  datatype Hop = Field(key: Key) | Item(index: nat)

  function At(value: Json, path: seq<Hop>): Option<Json> {
    if path == [] then Some(value)
    else
      match path[0]
      case Field(key) => if value.Obj? && key in value.fields then At(value.fields[key], path[1..]) else None
      case Item(i) => if value.Arr? && i < |value.items| then At(value.items[i], path[1..]) else None
  }

  const FILE_NAMES := {"certificateFile", "keyFile", "certificatePath", "keyPath"}

  /** The way leads to an object with such a key. */
  predicate LeadsToFile(value: Json, path: seq<Hop>, name: string) {
    var there := At(value, path);
    there.Some? && there.value.Obj? && Other(name) in there.value.fields && name in FILE_NAMES
  }

  lemma {:induction false} WayToFile(value: Json) returns (path: seq<Hop>, name: string)
    requires HasFileKey(value)
    ensures LeadsToFile(value, path, name)
    decreases value
  {
    if value.Obj? {
      var key :| key in value.fields && (FileKey(key) || HasFileKey(value.fields[key]));
      if FileKey(key) {
        path, name := [], key.name;
      } else {
        var rest;
        rest, name := WayToFile(value.fields[key]);
        path := [Field(key)] + rest;
        assert path[1..] == rest;
      }
    } else {
      var i :| 0 <= i < |value.items| && HasFileKey(value.items[i]);
      var rest;
      rest, name := WayToFile(value.items[i]);
      path := [Item(i)] + rest;
      assert path[1..] == rest;
    }
  }

  lemma {:induction false} FileIsFound(value: Json, path: seq<Hop>, name: string)
    requires LeadsToFile(value, path, name)
    ensures HasFileKey(value)
    decreases |path|
  {
    if path == [] {
      assert FileKey(Other(name));
    } else if path[0].Field? {
      FileIsFound(value.fields[path[0].key], path[1..], name);
    } else {
      FileIsFound(value.items[path[0].index], path[1..], name);
    }
  }

  /** The search finds a file key exactly when some way through objects and lists leads to one of the four. */
  lemma SearchFindsEveryFileKey(value: Json)
    ensures Clean(value) <==> forall path, name :: !LeadsToFile(value, path, name)
  {
    CleanIsNoFileKey(value);
    if HasFileKey(value) {
      var path, name := WayToFile(value);
    } else {
      forall path, name ensures !LeadsToFile(value, path, name) {
        if LeadsToFile(value, path, name) {
          FileIsFound(value, path, name);
        }
      }
    }
  }

  // ---- The main configuration ----

  const EIGHT := {"http", "socks", "shadowsocks", "vmess", "vless", "trojan", "hysteria", "wireguard"}

  /** Listening where nobody but the host can reach it. */
  predicate OnLoopback(inbound: Json) {
    TextAt(inbound, Listen) == Some("127.0.0.1")
  }

  /** The only inbound a mode admits: the tunnel device, or SOCKS on 127.0.0.1:2081. */
  predicate AdmittedInbound(inbound: Json, tun: bool) {
    if tun then
      && Get(inbound, Tag) == Some(Str("tun-in")) && Get(inbound, Protocol) == Some(Str("tun"))
      && Within(Get(inbound, Settings), Name) == Some(Str("varmlen0"))
    else
      && Get(inbound, Tag) == Some(Str("socks-in")) && Get(inbound, Protocol) == Some(Str("socks"))
      && Get(inbound, Listen) == Some(Str("127.0.0.1")) && Get(inbound, Port) == Some(Num(2081))
  }

  lemma TextIsStr(value: Json, key: Key, text: string)
    ensures TextAt(value, key) == Some(text) <==> Get(value, key) == Some(Str(text))
  {
  }

  lemma AdmittedIsMainInbound(inbound: Json, tun: bool)
    ensures MainInbound(inbound, tun) <==> AdmittedInbound(inbound, tun)
  {
  }

  predicate IsSystem(outbound: Json) {
    || (TextAt(outbound, Tag) == Some("direct") && TextAt(outbound, Protocol) == Some("freedom"))
    || (TextAt(outbound, Tag) == Some("dns-out") && TextAt(outbound, Protocol) == Some("dns"))
    || (TextAt(outbound, Tag) == Some("block") && TextAt(outbound, Protocol) == Some("blackhole"))
  }

  predicate Has(outbounds: seq<Json>, tag: string, protocol: string) {
    exists i :: 0 <= i < |outbounds| && TextAt(outbounds[i], Tag) == Some(tag)
                && TextAt(outbounds[i], Protocol) == Some(protocol)
  }

  predicate OfTheEight(outbound: Json) {
    var protocol := TextAt(outbound, Protocol);
    protocol.Some? && protocol.value in EIGHT
  }

  /** Between one and 64 proxies of known protocols, the three system outbounds, nothing else, and a tag of its own
      for each. */
  predicate AdmittedOutbounds(outbounds: seq<Json>) {
    && 4 <= |outbounds| <= 67
    && (forall i :: 0 <= i < |outbounds| ==> OfTheEight(outbounds[i]) || IsSystem(outbounds[i]))
    && Has(outbounds, "direct", "freedom") && Has(outbounds, "dns-out", "dns") && Has(outbounds, "block", "blackhole")
    && (forall i :: 0 <= i < |outbounds| ==> TextAt(outbounds[i], Tag).Some? && TextAt(outbounds[i], Tag).value != "")
    && (forall i, j :: 0 <= i < j < |outbounds| ==> TextAt(outbounds[i], Tag) != TextAt(outbounds[j], Tag))
  }

  function Not(p: Json -> bool): Json -> bool { x => !p(x) }

  lemma {:induction false} Complement(s: seq<Json>, p: Json -> bool)
    ensures |Filter(s, p)| + |Filter(s, Not(p))| == |s|
  {
    if s != [] {
      Complement(s[1..], p);
    }
  }

  /** What is no proxy is counted by kind, if it is of one of the kinds. */
  lemma {:induction false} CountByKind(s: seq<Json>)
    ensures var kinds := |Filter(s, Matching("direct", "freedom"))| + |Filter(s, Matching("dns-out", "dns"))|
                         + |Filter(s, Matching("block", "blackhole"))|;
            && kinds <= |Filter(s, Not(IsProxy))|
            && (kinds == |Filter(s, Not(IsProxy))| <==>
                forall i :: 0 <= i < |s| ==> IsProxy(s[i]) || IsSystem(s[i]))
  {
    if s != [] {
      CountByKind(s[1..]);
      KindOf(s[0]);
      hide IsProxy, IsSystem, Is;
      assert forall i :: 1 <= i < |s| ==> s[i] == s[1..][i - 1];
    }
  }

  /** A system outbound is of exactly one kind, and no proxy. */
  lemma KindOf(x: Json)
    ensures !(IsProxy(x) && IsSystem(x))
    ensures (if Is(x, "direct", "freedom") then 1 else 0) + (if Is(x, "dns-out", "dns") then 1 else 0)
            + (if Is(x, "block", "blackhole") then 1 else 0) == if IsSystem(x) then 1 else 0
  {
  }

  /** Tags tell outbounds apart, so one of a kind is at most one. */
  lemma {:induction false} OneOfAKind(s: seq<Json>, tag: string, protocol: string)
    requires forall i, j :: 0 <= i < j < |s| ==> TextAt(s[i], Tag) != TextAt(s[j], Tag)
    ensures |Filter(s, Matching(tag, protocol))| == if Has(s, tag, protocol) then 1 else 0
  {
    var p := Matching(tag, protocol);
    if s != [] {
      var rest := s[1..];
      assert forall i :: 0 <= i < |rest| ==> rest[i] == s[i + 1];
      OneOfAKind(rest, tag, protocol);
      if p(s[0]) {
        assert !Has(rest, tag, protocol);
        assert Has(s, tag, protocol);
      } else if Has(s, tag, protocol) {
        var i :| 0 <= i < |s| && TextAt(s[i], Tag) == Some(tag) && TextAt(s[i], Protocol) == Some(protocol);
        assert rest[i - 1] == s[i];
      }
    }
  }

  lemma AdmittedIsMainOutbounds(outbounds: seq<Json>)
    ensures MainOutbounds(outbounds) <==> AdmittedOutbounds(outbounds)
  {
    Complement(outbounds, IsProxy);
    CountByKind(outbounds);
    assert forall x :: IsProxy(x) <==> OfTheEight(x);
    hide Filter, IsProxy, OfTheEight, IsSystem, Has;
    if DistinctTags(outbounds) {
      OneOfAKind(outbounds, "direct", "freedom");
      OneOfAKind(outbounds, "dns-out", "dns");
      OneOfAKind(outbounds, "block", "blackhole");
    }
  }

  /** The daemon accepts a main configuration exactly when all of this holds. */
  ghost predicate AdmittedMain(doc: Json, tun: bool) {
    && doc.Obj?
    && (forall key :: key in doc.fields ==>
          key in {Log, Dns, Inbounds, Outbounds, Routing, Observatory, BurstObservatory})
    && Log in doc.fields && doc.fields[Log].Obj? && (forall key :: key in doc.fields[Log].fields ==> key == LogLevel)
    && Inbounds in doc.fields && doc.fields[Inbounds].Arr? && |doc.fields[Inbounds].items| == 1
    && AdmittedInbound(doc.fields[Inbounds].items[0], tun)
    && Outbounds in doc.fields && doc.fields[Outbounds].Arr? && AdmittedOutbounds(doc.fields[Outbounds].items)
    && Dns in doc.fields && doc.fields[Dns].Obj? && Routing in doc.fields && doc.fields[Routing].Obj?
    && (forall path, name :: !LeadsToFile(doc, path, name))
  }

  lemma MainAcceptedMeans(doc: Json, tun: bool)
    ensures MainAccepted(doc, tun) <==> AdmittedMain(doc, tun)
  {
    SearchFindsEveryFileKey(doc);
    hide Clean, LeadsToFile, MainInbound, AdmittedInbound, MainOutbounds, AdmittedOutbounds;
    forall inbound ensures MainInbound(inbound, tun) <==> AdmittedInbound(inbound, tun) {
      AdmittedIsMainInbound(inbound, tun);
    }
    forall outbounds ensures MainOutbounds(outbounds) <==> AdmittedOutbounds(outbounds) {
      AdmittedIsMainOutbounds(outbounds);
    }
  }

  /** A document accepted for proxy mode opens one port, on 127.0.0.1:2081, and none to the network; one accepted for
      TUN opens only the tunnel device. */
  lemma AcceptedIsSafe(doc: Json, tun: bool)
    requires MainAccepted(doc, tun)
    ensures var inbounds := ItemsAt(doc, Inbounds).value;
            && |inbounds| == 1
            && (!tun ==> OnLoopback(inbounds[0]) && Get(inbounds[0], Port) == Some(Num(2081)))
            && (tun ==> Within(Get(inbounds[0], Settings), Name) == Some(Str("varmlen0")))
  {
    MainAcceptedMeans(doc, tun);
    hide MainAccepted, AdmittedOutbounds, LeadsToFile;
  }

  /** Put any JSON in the place of the inbound of an accepted document: exactly the admitted inbounds stay accepted. */
  lemma ReplacedInbound(doc: Json, tun: bool, inbound: Json)
    requires MainAccepted(doc, tun)
    ensures MainAccepted(Obj(doc.fields[Inbounds := Arr([inbound])]), tun) <==>
            AdmittedInbound(inbound, tun) && Clean(inbound)
  {
    hide HasFileKey, Clean, MainInbound, MainOutbounds, AdmittedInbound;
    var next := Obj(doc.fields[Inbounds := Arr([inbound])]);
    AdmittedIsMainInbound(inbound, tun);
    CleanIsStructural(doc);
    CleanIsStructural(next);
    CleanIsStructural(Arr([inbound]));
    assert CleanItems([inbound]) <==> Clean(inbound) by {
      assert [inbound][0] == inbound;
    }
    assert CleanFields(next.fields) <==> Clean(Arr([inbound])) by {
      assert next.fields[Inbounds] == Arr([inbound]);
    }
    assert Get(next, Log) == Get(doc, Log) && Get(next, Dns) == Get(doc, Dns)
           && Get(next, Routing) == Get(doc, Routing);
    assert ItemsAt(next, Outbounds) == ItemsAt(doc, Outbounds) && ItemsAt(next, Inbounds) == Some([inbound]);
  }

  // ---- The probes ----

  /** A loopback SOCKS inbound without login and without UDP, on the port asked for. */
  predicate AdmittedProbeInbound(inbound: Json, port: nat) {
    && Get(inbound, Protocol) == Some(Str("socks")) && Get(inbound, Listen) == Some(Str("127.0.0.1"))
    && Get(inbound, Port) == Some(Num(port))
    && Within(Get(inbound, Settings), Auth) == Some(Str("noauth"))
    && Within(Get(inbound, Settings), Udp) == Some(Bool(false))
  }

  /** The tag of a probe inbound: its number, or the old name when it is the only one. */
  predicate AdmittedProbeTag(inbound: Json, index: nat, count: nat) {
    || Get(inbound, Tag) == Some(Str("socks-in-" + PrintNat(index)))
    || (count == 1 && Get(inbound, Tag) == Some(Str("socks-in")))
  }

  /** A proxy of a known protocol that dials under the mark, unless it is WireGuard. */
  predicate AdmittedProbeProxy(outbound: Json) {
    && OfTheEight(outbound)
    && TextAt(outbound, Tag).Some? && TextAt(outbound, Tag).value != ""
    && (Get(outbound, Protocol) == Some(Str("wireguard"))
        || Within(Within(Get(outbound, StreamSettings), Sockopt), Mark) == Some(Num(0x2024)))
  }

  lemma ProbeInboundMeans(inbound: Json, index: nat, ports: seq<nat>)
    requires index < |ports|
    ensures PingInbound(inbound, index, ports) <==>
            AdmittedProbeInbound(inbound, ports[index]) && AdmittedProbeTag(inbound, index, |ports|)
  {
    TextIsStr(inbound, Tag, InboundTagAt(index));
    TextIsStr(inbound, Tag, "socks-in");
    TextIsStr(inbound, Protocol, "socks");
    TextIsStr(inbound, Listen, "127.0.0.1");
    hide PrintNat;
  }

  lemma ProbeProxyMeans(outbound: Json)
    ensures PingProxy(outbound) <==> AdmittedProbeProxy(outbound)
  {
    TextIsStr(outbound, Protocol, "wireguard");
  }

  predicate TagsApart(values: seq<Json>) {
    && (forall i :: 0 <= i < |values| ==> TextAt(values[i], Tag).Some? && TextAt(values[i], Tag).value != "")
    && (forall i, j :: 0 <= i < j < |values| ==> TextAt(values[i], Tag) != TextAt(values[j], Tag))
  }

  predicate IsTagOf(values: seq<Json>, tag: Option<Json>) {
    exists i :: 0 <= i < |values| && tag.Some? && tag.value.Str? && TextAt(values[i], Tag) == Some(tag.value.text)
  }

  /** A selector is a prefix of the tag of some proxy. */
  predicate ChoosesAProxy(selector: Json, proxies: seq<Json>) {
    && selector.Str?
    && exists i :: 0 <= i < |proxies| && TextAt(proxies[i], Tag).Some? && selector.text <= TextAt(proxies[i], Tag).value
  }

  predicate AdmittedBalancer(balancer: Json, proxies: seq<Json>) {
    var selectors := Get(balancer, Selector);
    && selectors.Some? && selectors.value.Arr?
    && exists k :: 0 <= k < |selectors.value.items| && ChoosesAProxy(selectors.value.items[k], proxies)
  }

  /** At most 64 balancers, each with a tag of its own and a proxy to choose. */
  predicate AdmittedBalancers(balancers: seq<Json>, proxies: seq<Json>) {
    && |balancers| <= 64 && TagsApart(balancers)
    && forall i :: 0 <= i < |balancers| ==> AdmittedBalancer(balancers[i], proxies)
  }

  /** A rule that sends everything from its inbound to one proxy or one balancer, never to both. */
  predicate AdmittedProbeRule(rule: Json, inbound: Json, single: bool, proxies: seq<Json>, balancers: seq<Json>) {
    var from, proxied := Get(rule, InboundTag), IsTagOf(proxies, Get(rule, OutboundTag));
    var balanced := IsTagOf(balancers, Get(rule, BalancerTag));
    && Get(rule, Type) == Some(Str("field")) && Get(rule, Network) == Some(Str("tcp,udp"))
    && (from.None? ==> single)
    && (from.Some? ==> TextAt(inbound, Tag).Some? && from == Some(Arr([Str(TextAt(inbound, Tag).value)])))
    && (proxied || balanced) && !(proxied && balanced)
  }

  lemma InTagSet(values: seq<Json>, tag: string)
    ensures tag in TagSet(values) <==> exists i :: 0 <= i < |values| && TextAt(values[i], Tag) == Some(tag)
  {
  }

  lemma TagSetMeans(values: seq<Json>, tag: Option<Json>)
    ensures NamesOneOf(AsText(tag), TagSet(values)) <==> IsTagOf(values, tag)
  {
    if tag.Some? && tag.value.Str? {
      InTagSet(values, tag.value.text);
    }
    hide TagSet;
  }

  lemma BalancerMeans(balancer: Json, proxies: seq<Json>)
    ensures PingBalancer(balancer, TagSet(proxies)) <==>
            AdmittedBalancer(balancer, proxies) && TextAt(balancer, Tag).Some? && TextAt(balancer, Tag).value != ""
  {
    forall selector ensures Picks(selector, TagSet(proxies)) <==> ChoosesAProxy(selector, proxies) {
      PickMeans(selector, proxies);
    }
    hide Picks, ChoosesAProxy, TagSet;
  }

  lemma PickMeans(selector: Json, proxies: seq<Json>)
    ensures Picks(selector, TagSet(proxies)) <==> ChoosesAProxy(selector, proxies)
  {
    if selector.Str? {
      if Picks(selector, TagSet(proxies)) {
        var tag :| tag in TagSet(proxies) && selector.text <= tag;
        InTagSet(proxies, tag);
      }
      if ChoosesAProxy(selector, proxies) {
        var i :| 0 <= i < |proxies| && TextAt(proxies[i], Tag).Some? && selector.text <= TextAt(proxies[i], Tag).value;
        InTagSet(proxies, TextAt(proxies[i], Tag).value);
      }
    }
  }

  lemma BalancersMean(balancers: seq<Json>, proxies: seq<Json>)
    ensures PingBalancers(balancers, TagSet(proxies)) <==> AdmittedBalancers(balancers, proxies)
  {
    forall i | 0 <= i < |balancers|
      ensures PingBalancer(balancers[i], TagSet(proxies)) <==>
              AdmittedBalancer(balancers[i], proxies) && Tagged(balancers[i])
    {
      BalancerMeans(balancers[i], proxies);
    }
    hide PingBalancer, AdmittedBalancer, TagSet;
  }

  lemma RuleMeans(rule: Json, inbound: Json, single: bool, proxies: seq<Json>, balancers: seq<Json>)
    requires TextAt(inbound, Tag).Some?
    ensures PingRule(rule, RawTag(inbound), single, TagSet(proxies), TagSet(balancers)) <==>
            AdmittedProbeRule(rule, inbound, single, proxies, balancers)
  {
    TagSetMeans(proxies, Get(rule, OutboundTag));
    TagSetMeans(balancers, Get(rule, BalancerTag));
    TextIsStr(rule, Type, "field");
    TextIsStr(rule, Network, "tcp,udp");
    hide TagSet, IsTagOf, NamesOneOf;
  }

  /** The daemon accepts a probe for the ports exactly when all of this holds. */
  ghost predicate AdmittedProbe(doc: Json, ports: seq<nat>) {
    && doc.Obj?
    && (forall key :: key in doc.fields ==>
          key in {Log, Inbounds, Outbounds, Routing, Observatory, BurstObservatory})
    && Log in doc.fields && doc.fields[Log].Obj? && (forall key :: key in doc.fields[Log].fields ==> key == LogLevel)
    && Inbounds in doc.fields && doc.fields[Inbounds].Arr? && Outbounds in doc.fields && doc.fields[Outbounds].Arr?
    && Routing in doc.fields && doc.fields[Routing].Obj?
    && AdmittedPaths(doc.fields[Inbounds].items, doc.fields[Outbounds].items, doc.fields[Routing], ports)
    && (forall path, name :: !LeadsToFile(doc, path, name))
  }

  /** One loopback inbound per port, between one and 64 proxies and then the direct outbound, and one rule per port. */
  predicate AdmittedPaths(inbounds: seq<Json>, outbounds: seq<Json>, routing: Json, ports: seq<nat>) {
    && |inbounds| == |ports|
    && (forall i :: 0 <= i < |ports| ==>
        AdmittedProbeInbound(inbounds[i], ports[i]) && AdmittedProbeTag(inbounds[i], i, |ports|))
    && 2 <= |outbounds| <= 65
    && var proxies, last := outbounds[..|outbounds| - 1], outbounds[|outbounds| - 1];
       && Get(last, Tag) == Some(Str("direct")) && Get(last, Protocol) == Some(Str("freedom"))
       && (forall i :: 0 <= i < |proxies| ==> AdmittedProbeProxy(proxies[i])) && TagsApart(proxies)
       && AdmittedRouting(routing, inbounds, proxies)
  }

  predicate AdmittedRouting(routing: Json, inbounds: seq<Json>, proxies: seq<Json>) {
    var balancers, rules := Get(routing, Balancers), Get(routing, Rules);
    && routing.Obj? && (forall key :: key in routing.fields ==> key in {Rules, Balancers})
    && (balancers.Some? ==> balancers.value.Arr? && AdmittedBalancers(balancers.value.items, proxies))
    && rules.Some? && rules.value.Arr? && |rules.value.items| == |inbounds|
    && forall i :: 0 <= i < |inbounds| ==>
         AdmittedProbeRule(rules.value.items[i], inbounds[i], |inbounds| == 1, proxies, Flat(AsItems(balancers)))
  }

  lemma RoutingMeans(routing: Json, inbounds: seq<Json>, proxies: seq<Json>)
    requires forall i :: 0 <= i < |inbounds| ==> TextAt(inbounds[i], Tag).Some?
    ensures PingRouting(routing, inbounds, TagSet(proxies)) <==> AdmittedRouting(routing, inbounds, proxies)
  {
    var balancers, rules := Get(routing, Balancers), Get(routing, Rules);
    BalancersMean(Flat(AsItems(balancers)), proxies);
    if rules.Some? && rules.value.Arr? && |rules.value.items| == |inbounds| {
      forall i | 0 <= i < |inbounds|
        ensures PingRule(rules.value.items[i], RawTag(inbounds[i]), |inbounds| == 1, TagSet(proxies),
                         TagSet(Flat(AsItems(balancers))))
                <==> AdmittedProbeRule(rules.value.items[i], inbounds[i], |inbounds| == 1, proxies,
                                       Flat(AsItems(balancers)))
      {
        RuleMeans(rules.value.items[i], inbounds[i], |inbounds| == 1, proxies, Flat(AsItems(balancers)));
      }
    }
    hide PingRule, AdmittedProbeRule, PingBalancers, AdmittedBalancers, TagSet;
  }

  lemma PathsMean(inbounds: seq<Json>, outbounds: seq<Json>, routing: Json, ports: seq<nat>)
    ensures AdmittedPaths(inbounds, outbounds, routing, ports) <==>
            && LoopbackInbounds(inbounds, ports) && PingOutbounds(outbounds)
            && PingRouting(routing, inbounds, TagSet(outbounds[..|outbounds| - 1]))
  {
    if |inbounds| == |ports| {
      forall i | 0 <= i < |ports|
        ensures PingInbound(inbounds[i], i, ports) <==>
                AdmittedProbeInbound(inbounds[i], ports[i]) && AdmittedProbeTag(inbounds[i], i, |ports|)
        ensures AdmittedProbeTag(inbounds[i], i, |ports|) ==> TextAt(inbounds[i], Tag).Some?
      {
        ProbeInboundMeans(inbounds[i], i, ports);
      }
    }
    if 2 <= |outbounds| <= 65 {
      var proxies := outbounds[..|outbounds| - 1];
      forall i | 0 <= i < |proxies| ensures PingProxy(proxies[i]) <==> AdmittedProbeProxy(proxies[i]) {
        ProbeProxyMeans(proxies[i]);
      }
      TextIsStr(outbounds[|outbounds| - 1], Tag, "direct");
      TextIsStr(outbounds[|outbounds| - 1], Protocol, "freedom");
      if forall i :: 0 <= i < |inbounds| ==> TextAt(inbounds[i], Tag).Some? {
        RoutingMeans(routing, inbounds, proxies);
      }
    }
    hide PingInbound, AdmittedProbeInbound, AdmittedProbeTag, PingProxy, AdmittedProbeProxy, PingRouting,
         AdmittedRouting, TagSet;
  }

  lemma LogMeans(doc: Json)
    ensures LogFine(doc) <==>
            && Get(doc, Log).Some? && Get(doc, Log).value.Obj?
            && forall key :: key in Get(doc, Log).value.fields ==> key == LogLevel
  {
  }

  lemma ProbeAcceptedMeans(doc: Json, ports: seq<nat>)
    ensures PingAccepted(doc, ports) <==> AdmittedProbe(doc, ports)
  {
    hide Clean, LeadsToFile, LoopbackInbounds, PingOutbounds, PingRouting, AdmittedPaths, TagSet, LogFine;
    SearchFindsEveryFileKey(doc);
    LogMeans(doc);
    RoutingIsObject(doc, ports);
    var inbounds, outbounds, routing := ItemsAt(doc, Inbounds), ItemsAt(doc, Outbounds), Get(doc, Routing);
    if inbounds.Some? && outbounds.Some? && routing.Some? {
      PathsMean(inbounds.value, outbounds.value, routing.value, ports);
    }
  }

  lemma RoutingIsObject(doc: Json, ports: seq<nat>)
    ensures PingAccepted(doc, ports) ==> Get(doc, Routing).Some? && Get(doc, Routing).value.Obj?
  {
  }

  /** Every inbound of an accepted probe listens on loopback only, on the port asked for, without login or UDP; and
      every proxy of it dials under the mark, unless it is WireGuard. */
  lemma AcceptedProbeIsSafe(doc: Json, ports: seq<nat>, i: nat)
    requires PingAccepted(doc, ports)
    ensures var inbounds, outbounds := ItemsAt(doc, Inbounds).value, ItemsAt(doc, Outbounds).value;
            && |inbounds| == |ports| && |outbounds| >= 2
            && (i < |ports| ==> AdmittedProbeInbound(inbounds[i], ports[i]))
            && (i < |outbounds| - 1 ==> AdmittedProbeProxy(outbounds[i]))
  {
    ProbeAcceptedMeans(doc, ports);
    hide PingAccepted, AdmittedProbeInbound, AdmittedProbeProxy, AdmittedRouting, LeadsToFile;
    var outbounds := ItemsAt(doc, Outbounds).value;
    assert AdmittedPaths(ItemsAt(doc, Inbounds).value, outbounds, doc.fields[Routing], ports);
    assert i < |outbounds| - 1 ==> outbounds[..|outbounds| - 1][i] == outbounds[i];
  }

  /** A list with one item replaced is clean exactly when the new item is. */
  lemma ReplacedIsClean(doc: Json, key: Key, i: nat, value: Json)
    requires doc.Obj? && Clean(doc) && key in doc.fields && doc.fields[key].Arr? && i < |doc.fields[key].items|
    ensures Clean(Obj(doc.fields[key := Arr(doc.fields[key].items[i := value])])) <==> Clean(value)
  {
    hide HasFileKey, Clean;
    var items := doc.fields[key].items;
    var list := Arr(items[i := value]);
    var next := Obj(doc.fields[key := list]);
    CleanIsStructural(doc);
    CleanIsStructural(doc.fields[key]);
    CleanIsStructural(list);
    CleanIsStructural(next);
    assert CleanItems(list.items) <==> Clean(value) by {
      assert list.items[i] == value && forall k :: 0 <= k < |items| && k != i ==> list.items[k] == items[k];
    }
    assert CleanFields(next.fields) <==> Clean(list) by {
      assert next.fields[key] == list;
    }
  }

  function Proxies(doc: Json): seq<Json> {
    var outbounds := Flat(ItemsAt(doc, Outbounds));
    if outbounds == [] then [] else outbounds[..|outbounds| - 1]
  }

  /** An accepted probe with other inbounds is accepted when those and the rules for them pass. */
  lemma OtherInbounds(doc: Json, ports: seq<nat>, list: seq<Json>)
    requires PingAccepted(doc, ports)
    ensures var next := Obj(doc.fields[Inbounds := Arr(list)]);
            PingAccepted(next, ports) <==>
            LoopbackInbounds(list, ports) && PingRouting(Get(doc, Routing).value, list, TagSet(Proxies(doc)))
            && Clean(next)
  {
    hide Clean, LoopbackInbounds, PingRouting, PingOutbounds, TagSet;
    var next := Obj(doc.fields[Inbounds := Arr(list)]);
    assert Get(next, Log) == Get(doc, Log) && Get(next, Routing) == Get(doc, Routing);
    assert ItemsAt(next, Outbounds) == ItemsAt(doc, Outbounds) && ItemsAt(next, Inbounds) == Some(list);
    assert |ItemsAt(doc, Outbounds).value| >= 2 by {
      AcceptedHasProxies(doc, ports);
    }
  }

  lemma AcceptedHasProxies(doc: Json, ports: seq<nat>)
    requires PingAccepted(doc, ports)
    ensures |ItemsAt(doc, Outbounds).value| >= 2
  {
    hide Clean, LoopbackInbounds, PingRouting, TagSet, PingProxies;
  }

  lemma OneInboundReplaced(inbounds: seq<Json>, ports: seq<nat>, i: nat, inbound: Json)
    requires LoopbackInbounds(inbounds, ports) && i < |ports| && Get(inbound, Tag) == Get(inbounds[i], Tag)
    ensures LoopbackInbounds(inbounds[i := inbound], ports) <==> AdmittedProbeInbound(inbound, ports[i])
  {
    ProbeInboundMeans(inbound, i, ports);
    ProbeInboundMeans(inbounds[i], i, ports);
    hide AdmittedProbeInbound, PingInbound;
    var list := inbounds[i := inbound];
    assert AdmittedProbeTag(inbound, i, |ports|) <==> AdmittedProbeTag(inbounds[i], i, |ports|);
    assert PingInbound(inbounds[i], i, ports);
    assert list[i] == inbound && forall k :: 0 <= k < |ports| && k != i ==> list[k] == inbounds[k];
  }

  /** Put any JSON of the same tag in the place of an inbound of an accepted probe: exactly the loopback inbounds on
      that port, without login and UDP, stay accepted. */
  lemma ReplacedProbeInbound(doc: Json, ports: seq<nat>, i: nat, inbound: Json)
    requires PingAccepted(doc, ports) && i < |ports|
    requires Get(inbound, Tag) == Get(ItemsAt(doc, Inbounds).value[i], Tag)
    ensures var inbounds := ItemsAt(doc, Inbounds).value;
            PingAccepted(Obj(doc.fields[Inbounds := Arr(inbounds[i := inbound])]), ports) <==>
            AdmittedProbeInbound(inbound, ports[i]) && Clean(inbound)
  {
    hide Clean, PingRouting, TagSet, AdmittedProbeInbound, PingOutbounds, PingInbound;
    var inbounds := ItemsAt(doc, Inbounds).value;
    ReplacedIsClean(doc, Inbounds, i, inbound);
    OtherInbounds(doc, ports, inbounds);
    OtherInbounds(doc, ports, inbounds[i := inbound]);
    OneInboundReplaced(inbounds, ports, i, inbound);
    SameRouting(Get(doc, Routing).value, inbounds, inbounds[i := inbound], TagSet(Proxies(doc)));
    assert doc.fields[Inbounds := Arr(inbounds)] == doc.fields;
    hide LoopbackInbounds, Proxies;
  }

  lemma SameRouting(routing: Json, a: seq<Json>, b: seq<Json>, proxyTags: set<string>)
    requires |a| == |b| && forall i :: 0 <= i < |a| ==> Get(a[i], Tag) == Get(b[i], Tag)
    ensures PingRouting(routing, a, proxyTags) <==> PingRouting(routing, b, proxyTags)
  {
    hide PingRule, PingBalancers, TagSet;
    assert forall i :: 0 <= i < |a| ==> RawTag(a[i]) == RawTag(b[i]);
  }

  /** An accepted probe with other outbounds of the same tags is accepted when those pass. */
  lemma OtherOutbounds(doc: Json, ports: seq<nat>, list: seq<Json>)
    requires PingAccepted(doc, ports) && |list| == |ItemsAt(doc, Outbounds).value|
    requires forall k :: 0 <= k < |list| ==> Get(list[k], Tag) == Get(ItemsAt(doc, Outbounds).value[k], Tag)
    ensures var next := Obj(doc.fields[Outbounds := Arr(list)]);
            PingAccepted(next, ports) <==> PingOutbounds(list) && Clean(next)
  {
    hide Clean, LoopbackInbounds, PingRouting, PingOutbounds, TagSet, LogFine;
    AcceptedHasProxies(doc, ports);
    SameFrontTags(ItemsAt(doc, Outbounds).value, list);
    var next := Obj(doc.fields[Outbounds := Arr(list)]);
    LogMeans(doc);
    LogMeans(next);
    assert Get(next, Log) == Get(doc, Log) && Get(next, Routing) == Get(doc, Routing);
    assert ItemsAt(next, Inbounds) == ItemsAt(doc, Inbounds) && ItemsAt(next, Outbounds) == Some(list);
  }

  lemma OneProxyReplaced(outbounds: seq<Json>, i: nat, outbound: Json)
    requires PingOutbounds(outbounds) && i < |outbounds| - 1 && Get(outbound, Tag) == Get(outbounds[i], Tag)
    ensures PingOutbounds(outbounds[i := outbound]) <==> AdmittedProbeProxy(outbound)
  {
    ProbeProxyMeans(outbound);
    hide PingProxy, AdmittedProbeProxy;
    var list := outbounds[i := outbound];
    var proxies, others := outbounds[..|outbounds| - 1], list[..|list| - 1];
    assert others[i] == outbound && forall k :: 0 <= k < |proxies| && k != i ==> others[k] == proxies[k];
    assert forall k :: 0 <= k < |proxies| ==> TextAt(others[k], Tag) == TextAt(proxies[k], Tag);
    assert list[|list| - 1] == outbounds[|outbounds| - 1];
  }

  /** The same for a proxy: exactly those of a known protocol that dial under the mark, or are WireGuard, stay. */
  lemma ReplacedProbeProxy(doc: Json, ports: seq<nat>, i: nat, outbound: Json)
    requires PingAccepted(doc, ports) && i < |ItemsAt(doc, Outbounds).value| - 1
    requires Get(outbound, Tag) == Get(ItemsAt(doc, Outbounds).value[i], Tag)
    ensures var outbounds := ItemsAt(doc, Outbounds).value;
            PingAccepted(Obj(doc.fields[Outbounds := Arr(outbounds[i := outbound])]), ports) <==>
            AdmittedProbeProxy(outbound) && Clean(outbound)
  {
    hide Clean, PingRouting, TagSet, AdmittedProbeProxy, PingOutbounds, LoopbackInbounds;
    var outbounds := ItemsAt(doc, Outbounds).value;
    ReplacedIsClean(doc, Outbounds, i, outbound);
    OtherOutbounds(doc, ports, outbounds[i := outbound]);
    OneProxyReplaced(outbounds, i, outbound);
  }

  lemma SameFrontTags(a: seq<Json>, b: seq<Json>)
    requires |a| == |b| && a != [] && forall i :: 0 <= i < |a| ==> Get(b[i], Tag) == Get(a[i], Tag)
    ensures TagSet(a[..|a| - 1]) == TagSet(b[..|b| - 1])
  {
    SameTagSet(a[..|a| - 1], b[..|b| - 1]);
  }

  lemma SameTagSet(a: seq<Json>, b: seq<Json>)
    requires |a| == |b| && forall i :: 0 <= i < |a| ==> Get(a[i], Tag) == Get(b[i], Tag)
    ensures TagSet(a) == TagSet(b)
  {
    assert forall i :: 0 <= i < |a| ==> TextAt(a[i], Tag) == TextAt(b[i], Tag);
    forall tag ensures tag in TagSet(a) <==> tag in TagSet(b) {
      InTagSet(a, tag);
      InTagSet(b, tag);
    }
  }
}
