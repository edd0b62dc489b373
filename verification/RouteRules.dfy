/** Compiling the per-app and per-site split into Xray's first-match routing rules. */
module RouteRules {
  import opened Basics
  import opened Text
  import opened Addresses

  datatype ProxyTarget = Outbound(tag: string) | Balancer(tag: string)

  datatype Target = DnsOut | Direct | Block | Proxy(via: ProxyTarget)

  datatype TunMode = XrayNative | Tun2socks

  datatype SplitInput = SplitInput(appsMode: string, sitesMode: string, apps: seq<string>, sites: seq<string>)

  datatype Packet = Packet(
    inbound: string,
    port: nat,
    destination: Address,
    process: Option<string>,
    domain: Option<string>)

  /** `domain:x` covers x and everything below it, `full:x` covers x alone. */
  datatype Pattern = Suffix(name: string) | Full(name: string)

  datatype Condition =
    | DnsPort(inboundTag: string)
    | Ip(prefixes: seq<Prefix>)
    | Process(name: string)
    | Domain(patterns: seq<Pattern>)
    | Provider(matches: Packet -> bool)
    | AnyNetwork

  datatype Rule = Rule(condition: Condition, target: Target)

  const PRIVATE_CIDRS: seq<Prefix> := [
    Net4(10, 0, 8), Net4(172, 16, 12), Net4(192, 168, 16), Net4(127, 0, 8), Net4(169, 254, 16), Net4(100, 64, 10),
    Host(V6(1)), Net6(0xfc00, 7), Net6(0xfe80, 10)]

  // ---- How Xray reads the rules ----

  predicate Below(domain: string, name: string) {
    domain == name || (|domain| > |name| && domain[|domain| - |name| - 1..] == "." + name)
  }

  predicate PatternMatches(pattern: Pattern, domain: string) {
    match pattern
    case Suffix(name) => Below(domain, name)
    case Full(name) => domain == name
  }

  predicate AnyMatches(patterns: seq<Pattern>, domain: string) {
    exists i :: 0 <= i < |patterns| && PatternMatches(patterns[i], domain)
  }

  predicate AnyPattern(patterns: seq<Pattern>, p: Packet) {
    p.domain.Some? && AnyMatches(patterns, p.domain.value)
  }

  predicate Holds(condition: Condition, p: Packet) {
    match condition
    case DnsPort(tag) => p.inbound == tag && p.port == 53
    case Ip(prefixes) => InAny(prefixes, p.destination)
    case Process(name) => p.process == Some(name)
    case Domain(patterns) => AnyPattern(patterns, p)
    case Provider(matches) => matches(p)
    case AnyNetwork => true
  }

  function FirstMatch(rules: seq<Rule>, p: Packet): Option<Target> {
    if rules == [] then None
    else if Holds(rules[0].condition, p) then Some(rules[0].target)
    else FirstMatch(rules[1..], p)
  }

  // ---- The split policy, on sets of applications and sites ----

  datatype Policy = Policy(
    appsSelective: bool,
    sitesSelective: bool,
    native: bool,
    apps: set<string>,
    sites: set<string>,
    allowLan: bool,
    inboundTag: string,
    target: ProxyTarget,
    upstream: seq<Address>,
    provider: seq<Rule>)

  /** A site pattern as the user writes it: `*.x` covers x and everything below it. */
  predicate Covers(site: string, domain: string) {
    var name := Trim(site);
    if name == "" then false
    else if "*." <= name then Below(domain, name[2..])
    else domain == name
  }

  predicate AppListed(policy: Policy, p: Packet) {
    policy.native && p.process.Some? && p.process.value != "" && p.process.value in policy.apps
  }

  predicate SiteListed(policy: Policy, p: Packet) {
    p.domain.Some? && exists site :: site in policy.sites && Covers(site, p.domain.value)
  }

  function Listed(selective: bool, target: ProxyTarget): Target {
    if selective then Proxy(target) else Direct
  }

  /** What happens to traffic no list and no provider rule speaks about. */
  predicate DefaultProxied(policy: Policy) {
    if policy.native then !(policy.appsSelective || policy.sitesSelective) else !policy.sitesSelective
  }

  function Decide(policy: Policy, p: Packet): Target {
    if p.inbound == policy.inboundTag && p.port == 53 then DnsOut
    else if policy.allowLan && InAny(PRIVATE_CIDRS, p.destination) then Direct
    else if AppListed(policy, p) then Listed(policy.appsSelective, policy.target)
    else if SiteListed(policy, p) then Listed(policy.sitesSelective, policy.target)
    else if FirstMatch(policy.provider, p).Some? then FirstMatch(policy.provider, p).value
    else if p.destination in policy.upstream || DefaultProxied(policy) then Proxy(policy.target)
    else Direct
  }

  function PolicyOf(split: SplitInput, allowLan: bool, inboundTag: string, tun: TunMode, target: ProxyTarget,
                    upstream: seq<Address>, provider: seq<Rule>): Policy
  {
    Policy(split.appsMode == "selective", split.sitesMode == "selective", tun == XrayNative,
           (set app | app in split.apps), (set site | site in split.sites),
           allowLan, inboundTag, target, upstream, provider)
  }

  // ---- The compiler ----

  function PatternOf(site: string): Pattern {
    if "*." <= site then Suffix(site[2..]) else Full(site)
  }

  /** A rule of Varmlen's own, to one of the outbounds it may use. */
  predicate OwnRule(rule: Rule, target: ProxyTarget) {
    !rule.condition.Provider? && rule.target in {DnsOut, Direct, Proxy(target)}
  }

  predicate AllOwn(rules: seq<Rule>, target: ProxyTarget) {
    forall i :: 0 <= i < |rules| ==> OwnRule(rules[i], target)
  }

  /** The rules around the provider's. */
  method CompileOwnRules(split: SplitInput, allowLan: bool, inboundTag: string, tun: TunMode, target: ProxyTarget,
                         upstream: seq<Address>) returns (before: seq<Rule>, after: seq<Rule>)
    ensures AllOwn(before, target) && AllOwn(after, target)
    ensures forall provider, p ::
              FirstMatch(before + provider + after, p)
              == Some(Decide(PolicyOf(split, allowLan, inboundTag, tun, target, upstream, provider), p))
  {
    var appsSelective := split.appsMode == "selective";
    var sitesSelective := split.sitesMode == "selective";
    var supportsProcessSplit := tun == XrayNative;
    var defaultUsesProxy := if !supportsProcessSplit then !sitesSelective else !(appsSelective || sitesSelective);

    var head := [Rule(DnsPort(inboundTag), DnsOut)];
    if allowLan {
      head := head + [Rule(Ip(PRIVATE_CIDRS), Direct)];
    }
    var apps: seq<Rule> := [];
    if supportsProcessSplit {
      apps := AppRules(split.apps, Listed(appsSelective, target));
    }
    var domains := SitePatterns(split.sites);
    var sites := if domains != [] then [Rule(Domain(domains), Listed(sitesSelective, target))] else [];
    var pin := Rule(Ip(HostsOf(upstream)), Proxy(target));
    var default := Rule(AnyNetwork, if defaultUsesProxy then Proxy(target) else Direct);
    before := head + apps + sites;
    after := [pin, default];
    forall provider, p
      ensures FirstMatch(before + provider + after, p)
              == Some(Decide(PolicyOf(split, allowLan, inboundTag, tun, target, upstream, provider), p))
    {
      var policy := PolicyOf(split, allowLan, inboundTag, tun, target, upstream, provider);
      HeadDecides(allowLan, inboundTag, p);
      TailDecides(upstream, target, default.target, p);
      MatchOne(Rule(Domain(domains), Listed(sitesSelective, target)), p);
      assert AnyPattern(domains, p) <==> SiteListed(policy, p);
      NothingMatches(p);
      hide FirstMatch, AnyPattern, InAny;
      PartsDecide(policy, head, apps, sites, after, p);
    }
  }

  method BuildRouteRules(split: SplitInput, allowLan: bool, inboundTag: string, tun: TunMode, target: ProxyTarget,
                         upstream: seq<Address>, provider: seq<Rule>) returns (rules: seq<Rule>)
    ensures forall p :: FirstMatch(rules, p)
                     == Some(Decide(PolicyOf(split, allowLan, inboundTag, tun, target, upstream, provider), p))
  {
    hide FirstMatch, Decide, PolicyOf;
    var before, after := CompileOwnRules(split, allowLan, inboundTag, tun, target, upstream);
    rules := before + provider + after;
  }

  lemma NothingMatches(p: Packet)
    ensures FirstMatch([], p) == None
  {
  }

  /** The rules in their order decide as the policy does, when each group does its part. */
  lemma PartsDecide(policy: Policy, head: seq<Rule>, apps: seq<Rule>, sites: seq<Rule>, tail: seq<Rule>, p: Packet)
    requires FirstMatch(head, p) == if p.inbound == policy.inboundTag && p.port == 53 then Some(DnsOut)
                                    else if policy.allowLan && InAny(PRIVATE_CIDRS, p.destination) then Some(Direct)
                                    else None
    requires FirstMatch(apps, p) == if AppListed(policy, p) then Some(Listed(policy.appsSelective, policy.target))
             else None
    requires FirstMatch(sites, p) == if SiteListed(policy, p) then Some(Listed(policy.sitesSelective, policy.target))
             else None
    requires FirstMatch(tail, p) ==
             Some(if p.destination in policy.upstream || DefaultProxied(policy) then Proxy(policy.target) else Direct)
    ensures FirstMatch(head + apps + sites + policy.provider + tail, p) == Some(Decide(policy, p))
  {
    hide FirstMatch, InAny, AppListed, SiteListed;
    MatchConcat(head + apps + sites + policy.provider, tail, p);
    MatchConcat(head + apps + sites, policy.provider, p);
    MatchConcat(head + apps, sites, p);
    MatchConcat(head, apps, p);
  }

  /** One rule per enabled application. */
  method AppRules(apps: seq<string>, target: Target) returns (rules: seq<Rule>)
    ensures forall i :: 0 <= i < |rules| ==> rules[i].condition.Process? && rules[i].target == target
    ensures forall p :: FirstMatch(rules, p)
                     == if p.process.Some? && p.process.value != ""
                       && p.process.value in apps then Some(target) else None
  {
    rules := [];
    for i := 0 to |apps|
      invariant forall k :: 0 <= k < |rules| ==> rules[k].condition.Process? && rules[k].target == target
      invariant forall p :: FirstMatch(rules, p)
                         == if p.process.Some? && p.process.value != ""
                           && p.process.value in apps[..i] then Some(target) else None
    {
      assert apps[..i + 1] == apps[..i] + [apps[i]];
      if apps[i] != "" {
        var rule := Rule(Process(apps[i]), target);
        forall p
          ensures FirstMatch(rules + [rule], p)
               == if p.process.Some? && p.process.value != ""
                 && p.process.value in apps[..i + 1] then Some(target) else None
        {
          MatchConcat(rules, [rule], p);
          MatchOne(rule, p);
        }
        rules := rules + [rule];
      }
    }
    assert apps[..|apps|] == apps;
  }

  /** The patterns of the non-blank sites; together they match exactly what the sites cover. */
  method SitePatterns(sites: seq<string>) returns (patterns: seq<Pattern>)
    ensures forall p: Packet :: AnyPattern(patterns, p) <==>
              p.domain.Some? && exists site :: site in sites && Covers(site, p.domain.value)
  {
    patterns := [];
    for i := 0 to |sites|
      invariant forall domain :: AnyMatches(patterns, domain) <==> AnyCovers(sites, i, domain)
    {
      var name := Trim(sites[i]);
      ghost var before := patterns;
      if name != "" {
        patterns := patterns + [PatternOf(name)];
      }
      forall domain
        ensures AnyMatches(patterns, domain) <==> AnyCovers(sites, i + 1, domain)
      {
        OneMorePattern(before, patterns, sites, i, domain);
      }
    }
    forall p: Packet
      ensures AnyPattern(patterns, p) <==>
              p.domain.Some? && exists site :: site in sites && Covers(site, p.domain.value)
    {
    }
  }

  predicate AnyCovers(sites: seq<string>, n: nat, domain: string)
    requires n <= |sites|
  {
    exists j :: 0 <= j < n && Covers(sites[j], domain)
  }

  lemma OneMorePattern(before: seq<Pattern>, patterns: seq<Pattern>, sites: seq<string>, i: nat, domain: string)
    requires i < |sites|
    requires patterns == if Trim(sites[i]) != "" then before + [PatternOf(Trim(sites[i]))] else before
    requires AnyMatches(before, domain) <==> AnyCovers(sites, i, domain)
    ensures AnyMatches(patterns, domain) <==> AnyCovers(sites, i + 1, domain)
  {
    if Trim(sites[i]) != "" {
      assert PatternMatches(patterns[|before|], domain) <==> Covers(sites[i], domain);
      if k :| 0 <= k < |before| && PatternMatches(before[k], domain) {
        assert PatternMatches(patterns[k], domain);
      }
    }
  }

  function HostsOf(addresses: seq<Address>): seq<Prefix> {
    seq(|addresses|, i requires 0 <= i < |addresses| => Host(addresses[i]))
  }

  lemma {:induction false} MatchConcat(a: seq<Rule>, b: seq<Rule>, p: Packet)
    ensures FirstMatch(a + b, p) == OrElse(FirstMatch(a, p), FirstMatch(b, p))
  {
    if a == [] {
      assert a + b == b;
    } else {
      assert (a + b)[1..] == a[1..] + b;
      MatchConcat(a[1..], b, p);
    }
  }

  lemma MatchOne(rule: Rule, p: Packet)
    ensures FirstMatch([rule], p) == if Holds(rule.condition, p) then Some(rule.target) else None
  {
    assert [rule][1..] == [];
  }

  lemma HeadDecides(allowLan: bool, inboundTag: string, p: Packet)
    ensures var dns, lan := Rule(DnsPort(inboundTag), DnsOut), Rule(Ip(PRIVATE_CIDRS), Direct);
            var head := if allowLan then [dns] + [lan] else [dns];
            FirstMatch(head, p) == if p.inbound == inboundTag && p.port == 53 then Some(DnsOut)
                                   else if allowLan && InAny(PRIVATE_CIDRS, p.destination) then Some(Direct)
                                   else None
  {
    var dns, lan := Rule(DnsPort(inboundTag), DnsOut), Rule(Ip(PRIVATE_CIDRS), Direct);
    MatchOne(dns, p);
    MatchOne(lan, p);
    MatchConcat([dns], [lan], p);
  }

  lemma TailDecides(upstream: seq<Address>, target: ProxyTarget, default: Target, p: Packet)
    ensures var pin := Rule(Ip(HostsOf(upstream)), Proxy(target));
            FirstMatch([pin, Rule(AnyNetwork, default)], p)
            == Some(if p.destination in upstream then Proxy(target) else default)
  {
    var pin, last := Rule(Ip(HostsOf(upstream)), Proxy(target)), Rule(AnyNetwork, default);
    MatchOne(pin, p);
    MatchOne(last, p);
    MatchConcat([pin], [last], p);
    assert [pin] + [last] == [pin, last];
    if p.destination in upstream {
      var i :| 0 <= i < |upstream| && upstream[i] == p.destination;
      HostIsExact(upstream[i], p.destination);
      assert Contains(HostsOf(upstream)[i], p.destination);
    } else {
      forall i | 0 <= i < |upstream| ensures !Contains(HostsOf(upstream)[i], p.destination) {
        HostIsExact(upstream[i], p.destination);
      }
    }
  }

  // ---- What the policy promises ----

  /** Traffic that only the two lists and the default speak about. */
  predicate LeftToTheSplit(policy: Policy, p: Packet) {
    && policy.native
    && !(p.inbound == policy.inboundTag && p.port == 53)
    && !(policy.allowLan && InAny(PRIVATE_CIDRS, p.destination))
    && FirstMatch(policy.provider, p).None?
    && p.destination !in policy.upstream
  }

  /** The four mode combinations: what goes through the VPN, in terms of the two lists alone. */
  lemma SplitModes(policy: Policy, p: Packet)
    requires LeftToTheSplit(policy, p)
    ensures Decide(policy, p).Proxy? <==>
              if policy.appsSelective && policy.sitesSelective then AppListed(policy, p) || SiteListed(policy, p)
              else if policy.appsSelective then AppListed(policy, p)
              else if policy.sitesSelective then !AppListed(policy, p) && SiteListed(policy, p)
              else !AppListed(policy, p) && !SiteListed(policy, p)
    ensures !Decide(policy, p).Proxy? ==> Decide(policy, p) == Direct
  {
  }

  /** Only the sets matter: order, repetition and blank entries do not change any decision. */
  lemma OnlyTheSetsMatter(a: SplitInput, b: SplitInput, allowLan: bool, tag: string, tun: TunMode, target: ProxyTarget,
                          upstream: seq<Address>, provider: seq<Rule>, p: Packet)
    requires a.appsMode == b.appsMode && a.sitesMode == b.sitesMode
    requires forall app :: app != "" ==> (app in a.apps <==> app in b.apps)
    requires forall site :: Trim(site) != "" ==> (site in a.sites <==> site in b.sites)
    ensures Decide(PolicyOf(a, allowLan, tag, tun, target, upstream, provider), p)
         == Decide(PolicyOf(b, allowLan, tag, tun, target, upstream, provider), p)
  {
    var x := PolicyOf(a, allowLan, tag, tun, target, upstream, provider);
    var y := PolicyOf(b, allowLan, tag, tun, target, upstream, provider);
    assert AppListed(x, p) <==> AppListed(y, p);
    SameSites(x, y, p);
    SameSites(y, x, p);
  }

  lemma SameSites(x: Policy, y: Policy, p: Packet)
    requires forall site :: Trim(site) != "" && site in x.sites ==> site in y.sites
    ensures SiteListed(x, p) ==> SiteListed(y, p)
  {
    if SiteListed(x, p) {
      var site :| site in x.sites && Covers(site, p.domain.value);
      assert site in y.sites;
    }
  }

  /** A longer list is felt only by traffic it now names: a selective list sends that to the proxy, a
      general one sends it direct. */
  lemma LongerAppList(policy: Policy, apps: set<string>, p: Packet)
    requires policy.apps <= apps
    ensures var after := Decide(policy.(apps := apps), p);
            after == Decide(policy, p) || after == (if policy.appsSelective then Proxy(policy.target) else Direct)
  {
    assert SiteListed(policy.(apps := apps), p) <==> SiteListed(policy, p);
  }

  lemma LongerSiteList(policy: Policy, sites: set<string>, p: Packet)
    requires policy.sites <= sites
    ensures var after := Decide(policy.(sites := sites), p);
            after == Decide(policy, p) || after == (if policy.sitesSelective then Proxy(policy.target) else Direct)
  {
    SameSites(policy, policy.(sites := sites), p);
  }

  /** So no addition ever moves a packet the wrong way, whatever the provider's rules are. */
  lemma AdditionsMoveOneWay(policy: Policy, apps: set<string>, sites: set<string>, p: Packet)
    requires policy.apps <= apps && policy.sites <= sites
    ensures policy.appsSelective && policy.sitesSelective ==>
              !(Decide(policy, p).Proxy? && Decide(policy.(apps := apps, sites := sites), p) == Direct)
    ensures !policy.appsSelective && !policy.sitesSelective ==>
              !(Decide(policy, p) == Direct && Decide(policy.(apps := apps, sites := sites), p).Proxy?)
  {
    LongerAppList(policy, apps, p);
    LongerSiteList(policy.(apps := apps), sites, p);
    assert policy.(apps := apps).(sites := sites) == policy.(apps := apps, sites := sites);
  }
}
