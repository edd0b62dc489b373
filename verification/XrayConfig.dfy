/**
 Building the Xray documents: the main configuration, the latency probe and the connection preflight,
 from a location that may carry provider JSON.
 */
module XrayConfig {
  import opened Basics
  import opened Text
  import opened JsonValues
  import opened Marks
  import opened OutboundJson
  import O = Outbound
  import R = RouteRules
  import A = Addresses

  /** `Panics` is a failed `expect`. */
  datatype Outcome<+T> = Done(value: T) | Refused | Panics

  /** A location: the parsed server, and the provider JSON it came with. */
  datatype Location = Location(
    server: O.Server,
    wireguard: WireGuard,
    extra: map<Key, Json>,
    rawOutbound: Option<Json>,
    rawProfile: Option<Json>)

  /** What the code asks of its libraries: which element a hash set yields first, which route selectors are
      local addresses, which DNS endpoints are safe and how they are normalised, how prefixes are written. */
  datatype World = World(
    pick: set<string> -> string,
    isLocal: Json -> bool,
    dnsAddress: string -> Option<string>,
    show: A.Prefix -> string)

  ghost predicate Fair(world: World) {
    forall tags: set<string> :: tags != {} ==> world.pick(tags) in tags
  }

  const PROXY_PROTOCOLS := {"http", "socks", "shadowsocks", "vmess", "vless", "trojan", "hysteria", "wireguard"}

  const RESERVED_TAGS := {"direct", "dns-out", "block"}

  const TUN_NAME := "varmlen0"

  const TUN_MTU: nat := 1500

  const SOCKS_PORT: nat := 2081

  const PROBE_PORT_BASE: nat := 20810

  // ---- Provider outbounds ----

  function FieldsOf(value: Option<Json>): map<Key, Json> {
    if value.Some? && value.value.Obj? then value.value.fields else map[]
  }

  function Lookup(fields: map<Key, Json>, key: Key): Option<Json> {
    if key in fields then Some(fields[key]) else None
  }

  /** Stream settings whose socket options carry the dial mark. */
  function MarkedStream(stream: Option<Json>, preserve: bool): Json {
    var fields := FieldsOf(stream);
    var sockopt := FieldsOf(Lookup(fields, Sockopt));
    var kept := if preserve then sockopt else sockopt - {DialerProxy};
    Obj(fields[Sockopt := Obj(kept[Mark := Num(XRAY_DIAL_MARK)])])
  }

  predicate IsSupported(outbound: Json) {
    var protocol := TextAt(outbound, Protocol);
    protocol.Some? && Lowered(protocol.value) in PROXY_PROTOCOLS
  }

  /** `sanitize_raw_outbound`. */
  function Sanitize(outbound: Json, preserve: bool): Outcome<Json> {
    if RefersToFile(outbound) || !IsSupported(outbound) then Refused
    else
      var protocol := Lowered(TextAt(outbound, Protocol).value);
      var bound := outbound.fields - {SendThrough};
      var tagged := if preserve then bound else (bound - {ProxySettings})[Tag := Str("proxy")];
      if protocol == "wireguard" then Done(Obj(tagged - {StreamSettings}))
      else Done(Obj(tagged[StreamSettings := MarkedStream(Lookup(tagged, StreamSettings), preserve)]))
  }

  /** The tag a provider outbound keeps, or the one its place in the list gives it. */
  function TagFor(outbound: Json, index: nat): string {
    var tag := TextAt(outbound, Tag);
    if tag.Some? && tag.value != "" then tag.value
    else if index == 0 then "proxy"
    else "proxy-" + PrintNat(index + 1)
  }

  function Retagged(outbound: Json, index: nat): Json
    requires outbound.Obj?
  {
    Obj(outbound.fields[Tag := Str(TagFor(outbound, index))])
  }

  function TagOf(outbound: Json): string {
    var tag := TextAt(outbound, Tag);
    if tag.Some? then tag.value else ""
  }

  /** The supported outbounds among the first `n`, sanitized and tagged. */
  function ProxiesUpTo(outbounds: seq<Json>, n: nat): seq<Json>
    requires n <= |outbounds|
  {
    if n == 0 then []
    else
      var before := ProxiesUpTo(outbounds, n - 1);
      var ob := Sanitize(outbounds[n - 1], true);
      if ob.Done? then before + [Retagged(ob.value, n - 1)] else before
  }

  predicate AllReadable(outbounds: seq<Json>) {
    forall i :: 0 <= i < |outbounds| && IsSupported(outbounds[i]) ==> !RefersToFile(outbounds[i])
  }

  /** No two proxies share a tag, and none has one of the system's. */
  predicate TagsUsable(proxies: seq<Json>) {
    && (forall i :: 0 <= i < |proxies| ==> TagOf(proxies[i]) !in RESERVED_TAGS)
    && (forall i, j :: 0 <= i < j < |proxies| ==> TagOf(proxies[i]) != TagOf(proxies[j]))
  }

  function ProviderProxies(profile: Json): Outcome<seq<Json>> {
    var outbounds := ItemsAt(profile, Outbounds);
    if outbounds.None? then Refused
    else
      var proxies := ProxiesUpTo(outbounds.value, |outbounds.value|);
      if AllReadable(outbounds.value) && TagsUsable(proxies) && proxies != [] then Done(proxies) else Refused
  }

  lemma {:induction false} ProxiesGrow(outbounds: seq<Json>, m: nat, n: nat)
    requires m <= n <= |outbounds|
    ensures ProxiesUpTo(outbounds, m) <= ProxiesUpTo(outbounds, n)
    decreases n
  {
    hide Sanitize, Retagged;
    if m < n {
      ProxiesGrow(outbounds, m, n - 1);
    }
  }

  /** `provider_proxy_outbounds`, which stops at the first outbound it cannot take. */
  method ProviderProxyOutbounds(profile: Json) returns (r: Outcome<seq<Json>>)
    ensures r == ProviderProxies(profile)
  {
    hide RefersToFile, MarkedStream, Retagged, TagOf, IsSupported;
    var listed := ItemsAt(profile, Outbounds);
    if listed.None? {
      return Refused;
    }
    var outbounds := listed.value;
    var proxies: seq<Json> := [];
    var tags: set<string> := {};
    for index := 0 to |outbounds|
      invariant proxies == ProxiesUpTo(outbounds, index)
      invariant forall i :: 0 <= i < index && IsSupported(outbounds[i]) ==> !RefersToFile(outbounds[i])
      invariant TagsUsable(proxies)
      invariant forall tag :: tag in tags <==> exists i :: 0 <= i < |proxies| && TagOf(proxies[i]) == tag
    {
      if IsSupported(outbounds[index]) {
        var outbound := Sanitize(outbounds[index], true);
        if !outbound.Done? {
          return Refused;
        }
        var proxy := Retagged(outbound.value, index);
        var tag := TagOf(proxy);
        if tag in RESERVED_TAGS || tag in tags {
          ProxiesGrow(outbounds, index + 1, |outbounds|);
          ghost var all := ProxiesUpTo(outbounds, |outbounds|);
          assert proxies + [proxy] <= all && all[|proxies|] == proxy;
          assert forall i :: 0 <= i < |proxies| ==> all[i] == proxies[i];
          return Refused;
        }
        tags := tags + {tag};
        ghost var before := proxies;
        proxies := proxies + [proxy];
        assert proxies[|before|] == proxy && forall i :: 0 <= i < |before| ==> proxies[i] == before[i];
      }
    }
    if proxies == [] {
      return Refused;
    }
    return Done(proxies);
  }

  // ---- The plan ----

  datatype Plan = Plan(
    proxies: seq<Json>,
    target: R.ProxyTarget,
    balancers: Option<seq<Json>>,
    observatory: Option<Json>,
    burstObservatory: Option<Json>,
    providerRules: seq<Json>)

  function Tags(values: seq<Json>): set<string> {
    set i | 0 <= i < |values| && TextAt(values[i], Tag).Some? :: TextAt(values[i], Tag).value
  }

  predicate IsExternalSelector(value: Json) {
    value.Str? && var raw := Lowered(value.text); "geoip:" <= raw || "ext:" <= raw || "ext-ip:" <= raw
  }

  predicate Names(tag: Option<string>, tags: set<string>) {
    tag.Some? && tag.value in tags
  }

  predicate SomeItem(items: Option<seq<Json>>, p: Json -> bool) {
    items.Some? && exists i :: 0 <= i < |items.value| && p(items.value[i])
  }

  /** A provider rule Varmlen carries over. */
  predicate SafeRule(rule: Json, proxyTags: set<string>, balancerTags: set<string>, world: World) {
    var ip := ItemsAt(rule, Ip);
    && rule.Obj?
    && rule.fields.Keys !! {Domain, Process, InboundTag}
    && !(rule.fields.Keys !! {Protocol, Ip, Port, Source, SourcePort, User, Attrs})
    && !SomeItem(ip, IsExternalSelector)
    && (Names(TextAt(rule, OutboundTag), {"direct", "block"} + proxyTags)
        || Names(TextAt(rule, BalancerTag), balancerTags))
    && !(TextAt(rule, OutboundTag) == Some("direct") && SomeItem(ip, world.isLocal))
  }

  function Safe(proxyTags: set<string>, balancerTags: set<string>, world: World): Json -> bool {
    rule => SafeRule(rule, proxyTags, balancerTags, world)
  }

  function ProfileRules(profile: Option<Json>): seq<Json> {
    Flat(AsItems(Within(Within(profile, Routing), Rules)))
  }

  function SafeRules(profile: Option<Json>, proxies: seq<Json>, balancers: Option<seq<Json>>, world: World): seq<Json> {
    Filter(ProfileRules(profile), Safe(Tags(proxies), Tags(Flat(balancers)), world))
  }

  predicate SelectsProxy(selector: Json, proxyTags: set<string>) {
    selector.Str? && exists tag :: tag in proxyTags && selector.text <= tag
  }

  predicate SelectsSome(selectors: seq<Json>, proxyTags: set<string>) {
    exists i :: 0 <= i < |selectors| && SelectsProxy(selectors[i], proxyTags)
  }

  predicate UsableBalancer(balancer: Json, proxyTags: set<string>) {
    var selectors := ItemsAt(balancer, Selector);
    TextAt(balancer, Tag).Some? && selectors.Some? && SelectsSome(selectors.value, proxyTags)
  }

  predicate UsableBalancers(balancers: seq<Json>, proxyTags: set<string>) {
    forall i :: 0 <= i < |balancers| ==> UsableBalancer(balancers[i], proxyTags)
  }

  function RuleTarget(rule: Json, proxyTags: set<string>, balancerTags: set<string>): Option<R.ProxyTarget> {
    var balancer, outbound := TextAt(rule, BalancerTag), TextAt(rule, OutboundTag);
    if Names(balancer, balancerTags) then Some(R.Balancer(balancer.value))
    else if Names(outbound, proxyTags) then Some(R.Outbound(outbound.value))
    else None
  }

  /** The target of the last rule that has one. */
  function LastTarget(rules: seq<Json>, proxyTags: set<string>, balancerTags: set<string>): Option<R.ProxyTarget> {
    if rules == [] then None
    else
      var last := RuleTarget(rules[|rules| - 1], proxyTags, balancerTags);
      if last.Some? then last else LastTarget(rules[..|rules| - 1], proxyTags, balancerTags)
  }

  function ProfileBalancers(profile: Json): Option<seq<Json>> {
    var items := AsItems(Within(Get(profile, Routing), Balancers));
    if items.Some? && items.value != [] then items else None
  }

  function TargetOf(profile: Json, proxies: seq<Json>, balancers: Option<seq<Json>>, world: World): R.ProxyTarget
    requires proxies != []
  {
    var proxyTags, balancerTags := Tags(proxies), Tags(Flat(balancers));
    var named := LastTarget(ProfileRules(Some(profile)), proxyTags, balancerTags);
    if named.Some? then named.value
    else if balancerTags != {} then R.Balancer(world.pick(balancerTags))
    else R.Outbound(TagOf(proxies[0]))
  }

  /** `profile_plan`: `None` for a profile that is just one proxy. */
  function ProfilePlan(profile: Json, world: World): Outcome<Option<Plan>> {
    var listed := ProviderProxies(profile);
    if !listed.Done? then Refused
    else
      var proxies := listed.value;
      var balancers := ProfileBalancers(profile);
      var observatory, burst := Get(profile, Observatory), Get(profile, BurstObservatory);
      if |proxies| <= 1 && balancers.None? && observatory.None? && burst.None? then Done(None)
      else if !UsableBalancers(Flat(balancers), Tags(proxies)) then Refused
      else
        Done(Some(Plan(proxies, TargetOf(profile, proxies, balancers, world), balancers, observatory, burst,
                       SafeRules(Some(profile), proxies, balancers, world))))
  }

  /** `build_proxy_outbound`. */
  function ProxyOutbound(loc: Location): Outcome<Json> {
    if loc.rawOutbound.Some? then
      var ob := Sanitize(loc.rawOutbound.value, false);
      if ob.Done? then ob else Panics
    else Done(Printed(loc.server, loc.wireguard, loc.extra))
  }

  /** `outbound_plan`. */
  function OutboundPlan(loc: Location, world: World): Outcome<Plan> {
    var profiled := if loc.rawProfile.Some? then ProfilePlan(loc.rawProfile.value, world) else Done(None);
    if !profiled.Done? then Refused
    else if profiled.value.Some? then Done(profiled.value.value)
    else
      var ob := ProxyOutbound(loc);
      if !ob.Done? then Panics
      else
        Done(Plan([ob.value], R.Outbound("proxy"), None, None, None,
                  SafeRules(loc.rawProfile, [ob.value], None, world)))
  }

  predicate KnownTransport(s: O.Server) {
    !s.transport.OtherTransport?
  }

  /** The word the server has for its protocol; `OtherProtocol` is any word but the known ones in lower case. */
  function ProtocolSpelling(protocol: O.Protocol): string {
    if protocol.OtherProtocol? then protocol.name else ProtocolName(protocol)
  }

  function SecuritySpelling(security: O.Security): string {
    match security
    case Reality => "reality"
    case Tls => "tls"
    case NoSecurity => "none"
    case OtherSecurity(name) => name
  }

  /** The checks of a server without provider JSON, which look at its words without regard to case. */
  predicate FieldsAreFine(s: O.Server) {
    var protocol := Lowered(ProtocolSpelling(s.protocol));
    && protocol in PROXY_PROTOCOLS
    && if protocol == "wireguard" then Trim(s.uuid) != "" && Trim(O.Or(s.publicKey, "")) != ""
       else
         && KnownTransport(s)
         && (protocol == "hysteria" ==>
               s.transport == O.HysteriaTransport && Lowered(SecuritySpelling(s.security)) == "tls")
  }

  /** `validate_server`. */
  function ValidateServer(loc: Location, world: World): Outcome<()> {
    if loc.rawProfile.Some? then
      var plan := OutboundPlan(loc, world);
      if plan.Done? then Done(()) else if plan.Panics? then Panics else Refused
    else if loc.rawOutbound.Some? then
      if IsSupported(loc.rawOutbound.value) then Done(()) else Refused
    else if FieldsAreFine(loc.server) then Done(())
    else Refused
  }

  // ---- What every plan guarantees ----

  /** A proxy outbound the system can run: supported, tagged, and dialling with the mark unless WireGuard. */
  predicate GoodProxy(proxy: Json) {
    && proxy.Obj?
    && TextAt(proxy, Tag).Some? && TagOf(proxy) != "" && TagOf(proxy) !in RESERVED_TAGS
    && IsSupported(proxy)
    && (TextAt(proxy, Protocol) != Some("wireguard")
        && Lowered(TextAt(proxy, Protocol).value) == TextAt(proxy, Protocol).value
        ==> Marked(proxy))
  }

  predicate Marked(proxy: Json) {
    Within(Within(Get(proxy, StreamSettings), Sockopt), Mark) == Some(Num(XRAY_DIAL_MARK))
  }

  predicate GoodProxies(proxies: seq<Json>) {
    && (forall i :: 0 <= i < |proxies| ==> GoodProxy(proxies[i]))
    && (forall i, j :: 0 <= i < j < |proxies| ==> TagOf(proxies[i]) != TagOf(proxies[j]))
  }

  predicate GoodPlan(plan: Plan) {
    && plan.proxies != [] && GoodProxies(plan.proxies)
    && UsableBalancers(Flat(plan.balancers), Tags(plan.proxies))
    && (match plan.target
        case Outbound(tag) => tag in Tags(plan.proxies)
        case Balancer(tag) => tag in Tags(Flat(plan.balancers)))
  }

  lemma SanitizedIsGood(outbound: Json, preserve: bool)
    requires Sanitize(outbound, preserve).Done?
    ensures var ob := Sanitize(outbound, preserve).value;
            && ob.Obj? && IsSupported(ob)
            && Get(ob, Protocol) == Get(outbound, Protocol)
            && (if preserve then Get(ob, Tag) == Get(outbound, Tag) else Get(ob, Tag) == Some(Str("proxy")))
            && (Lowered(TextAt(ob, Protocol).value) != "wireguard" ==> Marked(ob))
  {
    hide RefersToFile, Lowered;
  }

  lemma RetaggedIsGood(outbound: Json, index: nat)
    requires Sanitize(outbound, true).Done?
    requires TagFor(Sanitize(outbound, true).value, index) !in RESERVED_TAGS
    ensures GoodProxy(Retagged(Sanitize(outbound, true).value, index))
  {
    SanitizedIsGood(outbound, true);
    hide RefersToFile, Lowered, Sanitize, TagFor;
    var ob := Sanitize(outbound, true).value;
    var proxy := Retagged(ob, index);
    assert TextAt(proxy, Tag) == Some(TagFor(ob, index)) && Get(proxy, Protocol) == Get(ob, Protocol);
    assert Get(proxy, StreamSettings) == Get(ob, StreamSettings);
    TagIsNotEmpty(ob, index);
  }

  lemma TagIsNotEmpty(outbound: Json, index: nat)
    ensures TagFor(outbound, index) != ""
  {
  }

  lemma {:induction false} ProxiesAreGood(outbounds: seq<Json>, n: nat)
    requires n <= |outbounds| && TagsUsable(ProxiesUpTo(outbounds, n))
    ensures GoodProxies(ProxiesUpTo(outbounds, n))
  {
    hide RefersToFile, Lowered, Sanitize, GoodProxy;
    if n > 0 {
      var all, before := ProxiesUpTo(outbounds, n), ProxiesUpTo(outbounds, n - 1);
      assert forall i :: 0 <= i < |before| ==> before[i] == all[i];
      ProxiesAreGood(outbounds, n - 1);
      var ob := Sanitize(outbounds[n - 1], true);
      if ob.Done? {
        SanitizedIsGood(outbounds[n - 1], true);
        assert all[|before|] == Retagged(ob.value, n - 1);
        assert TagOf(all[|before|]) == TagFor(ob.value, n - 1);
        RetaggedIsGood(outbounds[n - 1], n - 1);
      }
    }
  }

  lemma TaggedIn(values: seq<Json>, i: nat)
    requires i < |values| && TextAt(values[i], Tag).Some?
    ensures TagOf(values[i]) in Tags(values)
  {
  }

  lemma {:induction false} LastTargetIsNamed(rules: seq<Json>, proxyTags: set<string>, balancerTags: set<string>)
    ensures var target := LastTarget(rules, proxyTags, balancerTags);
            target.Some? ==> target.value.tag in if target.value.Outbound? then proxyTags else balancerTags
  {
    if rules != [] {
      LastTargetIsNamed(rules[..|rules| - 1], proxyTags, balancerTags);
    }
  }

  lemma ProfilePlanIsGood(profile: Json, world: World)
    requires Fair(world)
    requires var plan := ProfilePlan(profile, world); plan.Done? && plan.value.Some?
    ensures GoodPlan(ProfilePlan(profile, world).value.value)
  {
    var outbounds := ItemsAt(profile, Outbounds).value;
    var plan := ProfilePlan(profile, world).value.value;
    ProxiesAreGood(outbounds, |outbounds|);
    TaggedIn(plan.proxies, 0);
    LastTargetIsNamed(ProfileRules(Some(profile)), Tags(plan.proxies), Tags(Flat(plan.balancers)));
    hide ProxiesUpTo, UsableBalancers, Tags, GoodProxies, LastTarget, ProfileRules, TagsUsable, AllReadable,
         SafeRules, TagOf;
  }

  lemma LowerCaseIsFixed(name: string)
    requires name in PROXY_PROTOCOLS
    ensures Lowered(name) == name
  {
    assert forall i :: 0 <= i < |name| ==> Lower(name[i]) == name[i];
  }

  /** An outbound under the fixed tag, as both printing and sanitizing give it. */
  lemma FixedTagIsGood(proxy: Json)
    requires Get(proxy, Tag) == Some(Str("proxy")) && IsSupported(proxy)
    requires Lowered(TextAt(proxy, Protocol).value) != "wireguard" ==> Marked(proxy)
    ensures GoodProxy(proxy) && TagOf(proxy) == "proxy"
  {
    hide Lowered, Marked;
  }

  lemma PrintedIsGood(loc: Location)
    ensures var ob := Printed(loc.server, loc.wireguard, loc.extra); GoodProxy(ob) && TagOf(ob) == "proxy"
  {
    hide Printed, Lowered;
    PrintedOutbound(loc.server, loc.wireguard, loc.extra);
    var name := ProtocolName(loc.server.protocol);
    assert name in PROXY_PROTOCOLS && (loc.server.protocol != O.Wireguard ==> name != "wireguard");
    LowerCaseIsFixed(name);
    FixedTagIsGood(Printed(loc.server, loc.wireguard, loc.extra));
  }

  lemma SinglePlanIsGood(ob: Json, rules: seq<Json>)
    requires GoodProxy(ob) && TagOf(ob) == "proxy"
    ensures GoodPlan(Plan([ob], R.Outbound("proxy"), None, None, None, rules))
  {
    hide IsSupported, Marked;
    TaggedIn([ob], 0);
  }

  /** Whatever the provider sends, a plan that exists can be run. */
  lemma PlanIsGood(loc: Location, world: World)
    requires Fair(world) && OutboundPlan(loc, world).Done?
    ensures GoodPlan(OutboundPlan(loc, world).value)
  {
    hide ProfilePlan, Sanitize, Printed, Lowered, IsSupported, Marked, SafeRules, GoodProxy, GoodPlan, TagOf;
    if loc.rawProfile.Some? && ProfilePlan(loc.rawProfile.value, world).value.Some? {
      ProfilePlanIsGood(loc.rawProfile.value, world);
    } else {
      var ob := ProxyOutbound(loc).value;
      if loc.rawOutbound.Some? {
        SanitizedIsGood(loc.rawOutbound.value, false);
        FixedTagIsGood(ob);
      } else {
        PrintedIsGood(loc);
      }
      SinglePlanIsGood(ob, OutboundPlan(loc, world).value.providerRules);
    }
  }

  /** A server that passed validation always has a plan, save in one case: JSON of a bare outbound is
      validated by protocol alone, and building it panics if it names a local file. */
  lemma ValidatedHasPlan(loc: Location, world: World)
    requires ValidateServer(loc, world).Done?
    ensures var plan := OutboundPlan(loc, world);
            if loc.rawProfile.None? && loc.rawOutbound.Some? && RefersToFile(loc.rawOutbound.value) then plan.Panics?
            else plan.Done?
  {
    hide RefersToFile, ProfilePlan, SafeRules;
  }

  /** Building compares the protocol as it is spelled. So a validated server is printed under the protocol it was
      validated as, exactly unless it spells another protocol than VLESS with a capital letter. */
  lemma PrintedAsValidated(loc: Location, world: World)
    requires loc.rawProfile.None? && loc.rawOutbound.None? && ValidateServer(loc, world).Done?
    ensures var plan, protocol := OutboundPlan(loc, world), loc.server.protocol;
            && plan.Done? && |plan.value.proxies| == 1
            && (TextAt(plan.value.proxies[0], Protocol) == Some(Lowered(ProtocolSpelling(protocol))) <==>
                (protocol.OtherProtocol? ==> Lowered(protocol.name) == "vless"))
  {
    hide Printed, Lowered, SafeRules;
    var protocol := loc.server.protocol;
    PrintedOutbound(loc.server, loc.wireguard, loc.extra);
    if !protocol.OtherProtocol? {
      LowerCaseIsFixed(ProtocolName(protocol));
    }
  }

  /** And a server validated as Hysteria, which needs TLS, is printed with TLS exactly if it spells that in lower
      case. */
  lemma HysteriaKeepsTls(s: O.Server)
    requires FieldsAreFine(s) && s.protocol == O.Hysteria
    ensures Lowered(SecuritySpelling(s.security)) == "tls"
    ensures O.BuildStream(s).tls.Some? <==> !s.security.OtherSecurity?
  {
    LowerCaseIsFixed("hysteria");
    TlsIsNeither();
    hide Lowered, O.BuildBlock, O.BuildTls, O.BuildReality;
  }

  lemma TlsIsNeither()
    ensures Lowered("reality") != "tls" && Lowered("none") != "tls"
  {
  }
}
