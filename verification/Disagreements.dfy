/** Provider JSON that the client validates and the daemon does not take, at concrete inputs. */
module Disagreements {
  import opened Basics
  import opened Text
  import opened JsonValues
  import opened OutboundJson
  import opened XrayConfig
  import opened XrayDocuments
  import opened ConfigChecker
  import opened Acceptance
  import O = Outbound
  import R = RouteRules

  /** A location that is the given outbound JSON and nothing else. */
  function Bare(server: O.Server, w: WireGuard, outbound: Json): Location {
    Location(server, w, map[], Some(outbound), None)
  }

  // ---- A local file ----

  const WITH_FILE := Obj(map[Protocol := Str("vless"), Other("certificateFile") := Str("/etc/cert")])

  /** Bare outbound JSON that names a file passes validation, and building a configuration from it panics. */
  lemma FileInBareOutboundPanics(server: O.Server, w: WireGuard, world: World)
    ensures var loc := Bare(server, w, WITH_FILE);
            ValidateServer(loc, world).Done? && OutboundPlan(loc, world).Panics?
  {
    WithFileIsSupported();
    hide RefersToFile, IsSupported;
    ValidatedHasPlan(Bare(server, w, WITH_FILE), world);
  }

  lemma WithFileIsSupported()
    ensures IsSupported(WITH_FILE) && RefersToFile(WITH_FILE)
  {
    LowerCaseIsFixed("vless");
    NamesAFile();
    hide Lowered, EndsWith, ProviderFileKey;
    assert Other("certificateFile") in WITH_FILE.fields;
  }

  lemma NamesAFile()
    ensures ProviderFileKey(Other("certificateFile"))
  {
    var key := Lowered("certificateFile");
    assert |key| == 15;
    assert key[11..] == "file";
  }

  // ---- A protocol in upper case ----

  const UPPER_CASE := Obj(map[Protocol := Str("VLESS")])

  lemma UpperCaseIsSupported()
    ensures IsSupported(UPPER_CASE) && !RefersToFile(UPPER_CASE) && Lowered("VLESS") != "VLESS"
  {
    assert Lowered("VLESS") == "vless";
  }

  /** The client validates and builds it, and the daemon refuses both the configuration and the probe. */
  lemma UpperCaseIsRefused(server: O.Server, w: WireGuard, mode: string, level: string, mtu: nat, port: nat,
                           world: World)
    requires Fair(world)
    ensures var loc := Bare(server, w, UPPER_CASE);
            var plan := OutboundPlan(loc, world);
            && ValidateServer(loc, world).Done? && plan.Done? && |plan.value.proxies| == 1
            && !MainAccepted(MainDocument(loc, plan.value, mode, R.XrayNative, level, mtu, [], [], world),
                             mode != "proxy")
            && !PingAccepted(PingDocument(plan.value, [port]), [port])
  {
    var loc := Bare(server, w, UPPER_CASE);
    UpperCaseIsSupported();
    hide RefersToFile, Lowered, MainAccepted, PingAccepted, MainDocument, PingDocument, SafeRules, GoodProxies,
         DnsJson, CleanItems;
    ValidatedHasPlan(loc, world);
    var plan := OutboundPlan(loc, world).value;
    PlanIsGood(loc, world);
    SanitizedIsGood(UPPER_CASE, false);
    assert TextAt(plan.proxies[0], Protocol) == Some("VLESS");
    assert !Spelled(plan.proxies[0]);
    MainExactly(loc, plan, mode, R.XrayNative, level, mtu, [], [], world, mode != "proxy");
    PingExactly(plan, [port], [port]);
  }

  // ---- Other spellings in a server without provider JSON ----

  /** A server of the given words, on a transport. */
  function Worded(protocol: O.Protocol, transport: O.Transport, security: O.Security): O.Server {
    O.Server(protocol, "secret", None, None, "vpn.example", 443, transport, security, None, None, None, None, None,
             None, None, map[])
  }

  /** `Trojan` is validated as Trojan and printed as VLESS. */
  lemma CapitalTrojanIsPrintedAsVless(w: WireGuard, world: World)
    ensures var server := Worded(O.OtherProtocol("Trojan"), O.Tcp, O.Tls);
            var loc := Location(server, w, map[], None, None);
            var plan := OutboundPlan(loc, world);
            && ValidateServer(loc, world).Done? && plan.Done? && |plan.value.proxies| == 1
            && TextAt(plan.value.proxies[0], Protocol) == Some("vless")
  {
    hide Printed, SafeRules, OutboundPlan, FieldsAreFine, O.BuildStream, O.XrayNetwork, Lowered, IsSupported,
         PROXY_PROTOCOLS;
    var server := Worded(O.OtherProtocol("Trojan"), O.Tcp, O.Tls);
    TrojanIsFine();
    PrintedOutbound(server, w, map[]);
    SinglePlan(Location(server, w, map[], None, None), world);
  }

  lemma TrojanIsFine()
    ensures FieldsAreFine(Worded(O.OtherProtocol("Trojan"), O.Tcp, O.Tls))
  {
    TrojanInLowerCase();
    hide Lowered;
  }

  lemma TrojanInLowerCase()
    ensures Lowered("Trojan") == "trojan"
  {
  }

  lemma SinglePlan(loc: Location, world: World)
    requires loc.rawProfile.None? && loc.rawOutbound.None?
    ensures var plan := OutboundPlan(loc, world);
            plan.Done? && plan.value.proxies == [Printed(loc.server, loc.wireguard, loc.extra)]
  {
    hide Printed, SafeRules;
  }

  /** Hysteria over `TLS` is validated as a connection with TLS and printed without any security. */
  lemma CapitalTlsIsDropped(w: WireGuard, world: World)
    ensures var server := Worded(O.Hysteria, O.HysteriaTransport, O.OtherSecurity("TLS"));
            && ValidateServer(Location(server, w, map[], None, None), world).Done?
            && O.BuildStream(server).security == Some(O.NoSecurity) && O.BuildStream(server).tls.None?
  {
    LowerCaseIsFixed("hysteria");
    assert Lowered("TLS") == "tls";
    hide Lowered, O.BuildBlock, O.BuildTls, O.BuildReality;
  }

  // ---- Balancer tags ----

  const ONE_PROXY := Obj(map[Protocol := Str("vless"), Tag := Str("a")])

  function BalancerOf(tag: string): Json {
    Obj(map[Tag := Str(tag), Selector := Arr([Str("a")])])
  }

  function BalancersOf(tags: seq<string>): seq<Json> {
    seq(|tags|, i requires 0 <= i < |tags| => BalancerOf(tags[i]))
  }

  /** A profile of one proxy behind balancers of the given tags. */
  function Balanced(tags: seq<string>): Json {
    Obj(map[Outbounds := Arr([ONE_PROXY]), Routing := Obj(map[Balancers := Arr(BalancersOf(tags))])])
  }

  lemma OneProxyIsTaken()
    ensures var proxies := ProxiesUpTo([ONE_PROXY], 1);
            && |proxies| == 1 && TextAt(proxies[0], Tag) == Some("a") && AllReadable([ONE_PROXY]) && TagsUsable(proxies)
  {
    LowerCaseIsFixed("vless");
    assert !RefersToFile(ONE_PROXY);
    SanitizedIsGood(ONE_PROXY, true);
    hide RefersToFile, Lowered, MarkedStream;
    assert ProxiesUpTo([ONE_PROXY], 0) == [];
    var ob := Sanitize(ONE_PROXY, true);
    assert ob.Done? && TextAt(ob.value, Tag) == Some("a");
    assert ProxiesUpTo([ONE_PROXY], 1) == [] + [Retagged(ob.value, 0)];
  }

  lemma BalancersAreUsable(tags: seq<string>, proxies: seq<Json>)
    requires |proxies| == 1 && TextAt(proxies[0], Tag) == Some("a")
    ensures UsableBalancers(BalancersOf(tags), Tags(proxies))
  {
    TaggedIn(proxies, 0);
    assert SelectsProxy(Str("a"), Tags(proxies));
    forall i | 0 <= i < |tags|
      ensures UsableBalancer(BalancersOf(tags)[i], Tags(proxies))
    {
      var selectors := ItemsAt(BalancerOf(tags[i]), Selector).value;
      assert selectors[0] == Str("a");
    }
  }

  lemma BalancedHasPlan(tags: seq<string>, world: World)
    requires tags != []
    ensures var plan := ProfilePlan(Balanced(tags), world);
            plan.Done? && plan.value.Some? && plan.value.value.balancers == Some(BalancersOf(tags))
  {
    OneProxyIsTaken();
    var proxies := ProxiesUpTo([ONE_PROXY], 1);
    BalancersAreUsable(tags, proxies);
    BalancersInProfile(tags);
    hide ProxiesUpTo, AllReadable, TagsUsable, UsableBalancers, TargetOf, SafeRules, Balanced, BalancersOf, Tags,
         ProfileBalancers;
    var profile := Balanced(tags);
    assert ProviderProxies(profile) == Done(proxies);
  }

  lemma BalancersInProfile(tags: seq<string>)
    requires tags != []
    ensures ItemsAt(Balanced(tags), Outbounds) == Some([ONE_PROXY])
    ensures ProfileBalancers(Balanced(tags)) == Some(BalancersOf(tags))
  {
    assert |BalancersOf(tags)| == |tags|;
  }

  /** The client validates the profile whatever the tags are; the daemon refuses its preflight for an empty tag
      and for a repeated one. */
  lemma BalancerTagsAreRefused(server: O.Server, w: WireGuard, tags: seq<string>, i: nat, j: nat, world: World)
    requires Fair(world) && i < |tags| && j < |tags| && (tags[i] == "" || (i < j && tags[i] == tags[j]))
    ensures var loc := Location(server, w, map[], None, Some(Balanced(tags)));
            var plan := OutboundPlan(loc, world);
            && ValidateServer(loc, world).Done? && plan.Done?
            && !PingAccepted(ProbeDocument(plan.value), [PROBE_PORT_BASE])
  {
    var loc := Location(server, w, map[], None, Some(Balanced(tags)));
    BalancedHasPlan(tags, world);
    hide ProfilePlan, PingAccepted, ProbeDocument, Fits, CleanObservers, CleanItems, Balanced, BalancersOf,
         DistinctTags, GoodPlan;
    var plan := OutboundPlan(loc, world).value;
    PlanIsGood(loc, world);
    TagsOfBalancers(tags, i, j);
    ProbeExactly(plan, [PROBE_PORT_BASE]);
  }

  lemma TagsOfBalancers(tags: seq<string>, i: nat, j: nat)
    requires i < |tags| && j < |tags| && (tags[i] == "" || (i < j && tags[i] == tags[j]))
    ensures !DistinctTags(BalancersOf(tags))
  {
    var balancers := BalancersOf(tags);
    assert TextAt(balancers[i], Tag) == Some(tags[i]) && TextAt(balancers[j], Tag) == Some(tags[j]);
  }

  /** One empty tag, and one tag twice. */
  lemma EmptyAndRepeatedTags(server: O.Server, w: WireGuard, world: World)
    requires Fair(world)
    ensures forall tags :: tags in {[""], ["b", "b"]} ==>
              var loc := Location(server, w, map[], None, Some(Balanced(tags)));
              var plan := OutboundPlan(loc, world);
              && ValidateServer(loc, world).Done? && plan.Done?
              && !PingAccepted(ProbeDocument(plan.value), [PROBE_PORT_BASE])
  {
    BalancerTagsAreRefused(server, w, [""], 0, 0, world);
    BalancerTagsAreRefused(server, w, ["b", "b"], 0, 1, world);
  }
}
