/** The decisions of the split, told by the user's own input: modes, lists, ranges of addresses and names. */
module PolicyLaws {
  import opened Basics
  import opened Text
  import opened Addresses
  import opened AddressRanges
  import opened RouteRules

  /** The private ranges: the local networks, 127.0.0.0/8 and ::1. */
  predicate IsPrivate(address: Address) {
    IsLan4(address) || IsLan6(address) || InRange4(address, 0x7F00_0000, 0x100_0000) || address == V6(1)
  }

  lemma PrivateMeans(address: Address)
    ensures InAny(PRIVATE_CIDRS, address) <==> IsPrivate(address)
  {
    Lan4Means(address);
    Lan6Means(address);
    LoopbackMeans(address);
    HostIsExact(V6(1), address);
    hide Contains, IsLan4, IsLan6, InRange4;
    var nets := PRIVATE_CIDRS;
    assert InAny(nets, address) <==>
           || Contains(nets[0], address) || Contains(nets[1], address) || Contains(nets[2], address)
           || Contains(nets[3], address) || Contains(nets[4], address) || Contains(nets[5], address)
           || Contains(nets[6], address) || Contains(nets[7], address) || Contains(nets[8], address);
  }

  /** `*.x` means x and every name that ends in a dot and x; anything else means itself; blanks around it are ignored,
      and a blank entry means nothing. */
  ghost predicate Means(site: string, domain: string) {
    var name := Trim(site);
    && name != ""
    && if |name| >= 2 && name[0] == '*' && name[1] == '.'
       then domain == name[2..] || exists prefix: string :: domain == prefix + "." + name[2..]
       else domain == name
  }

  lemma EndsInName(domain: string, name: string)
    ensures Below(domain, name) <==> domain == name || exists prefix: string :: domain == prefix + "." + name
  {
    if |domain| > |name| && domain[|domain| - |name| - 1..] == "." + name {
      var prefix := domain[..|domain| - |name| - 1];
      assert domain == prefix + ("." + name);
      assert prefix + ("." + name) == prefix + "." + name;
    }
    if prefix: string :| domain == prefix + "." + name {
      assert prefix + "." + name == prefix + ("." + name);
      assert domain[|prefix|..] == "." + name;
    }
  }

  lemma CoversMeans(site: string, domain: string)
    ensures Covers(site, domain) <==> Means(site, domain)
  {
    var name := Trim(site);
    hide Trim;
    if |name| >= 2 {
      EndsInName(domain, name[2..]);
    }
    assert "*." <= name <==> |name| >= 2 && name[0] == '*' && name[1] == '.';
  }

  ghost predicate SiteIn(sites: seq<string>, p: Packet) {
    p.domain.Some? && exists site :: site in sites && Means(site, p.domain.value)
  }

  predicate AppIn(apps: seq<string>, p: Packet) {
    p.process.Some? && p.process.value != "" && p.process.value in apps
  }

  /** A listed application or site goes by its list's mode. */
  function ByMode(mode: string, target: ProxyTarget): Target {
    if mode == "selective" then Proxy(target) else Direct
  }

  /** What is left over: with native TUN it goes through the VPN unless some list is selective, and over SOCKS unless
      the site list is. */
  function LeftOver(split: SplitInput, tun: TunMode, target: ProxyTarget): Target {
    if split.sitesMode == "selective" || (tun == XrayNative && split.appsMode == "selective") then Direct
    else Proxy(target)
  }

  ghost predicate DecidedAs(split: SplitInput, allowLan: bool, tag: string, tun: TunMode, target: ProxyTarget,
                            upstream: seq<Address>, provider: seq<Rule>, p: Packet, decision: Target) {
    if p.inbound == tag && p.port == 53 then decision == DnsOut
    else if allowLan && IsPrivate(p.destination) then decision == Direct
    else if tun == XrayNative && AppIn(split.apps, p) then decision == ByMode(split.appsMode, target)
    else if SiteIn(split.sites, p) then decision == ByMode(split.sitesMode, target)
    else if FirstMatch(provider, p).Some? then FirstMatch(provider, p) == Some(decision)
    else if p.destination in upstream then decision == Proxy(target)
    else decision == LeftOver(split, tun, target)
  }

  /** The compiled rules decide every packet so. */
  lemma SplitDecides(split: SplitInput, allowLan: bool, tag: string, tun: TunMode, target: ProxyTarget,
                     upstream: seq<Address>, provider: seq<Rule>, p: Packet)
    ensures var policy := PolicyOf(split, allowLan, tag, tun, target, upstream, provider);
            DecidedAs(split, allowLan, tag, tun, target, upstream, provider, p, Decide(policy, p))
  {
    var policy := PolicyOf(split, allowLan, tag, tun, target, upstream, provider);
    PrivateMeans(p.destination);
    SitesMean(split, policy, p);
    hide InAny, IsPrivate, SiteListed, SiteIn, FirstMatch;
    assert AppListed(policy, p) <==> tun == XrayNative && AppIn(split.apps, p);
  }

  lemma SitesMean(split: SplitInput, policy: Policy, p: Packet)
    requires forall site :: site in policy.sites <==> site in split.sites
    ensures SiteListed(policy, p) <==> SiteIn(split.sites, p)
  {
    if p.domain.Some? {
      forall site ensures Covers(site, p.domain.value) <==> Means(site, p.domain.value) {
        CoversMeans(site, p.domain.value);
      }
    }
    hide Covers, Means;
  }

  /** Over SOCKS only the site list speaks: in selective mode exactly the listed sites go through the VPN, in general
      mode exactly the others, and no application ever matters. */
  lemma SocksFollowsTheSites(split: SplitInput, allowLan: bool, tag: string, target: ProxyTarget,
                             upstream: seq<Address>, provider: seq<Rule>, p: Packet)
    requires !(p.inbound == tag && p.port == 53) && !(allowLan && IsPrivate(p.destination))
    requires FirstMatch(provider, p).None? && p.destination !in upstream
    ensures var decision := Decide(PolicyOf(split, allowLan, tag, Tun2socks, target, upstream, provider), p);
            && (split.sitesMode == "selective" ==> decision == if SiteIn(split.sites, p) then Proxy(target) else Direct)
            && (split.sitesMode != "selective" ==> decision == if SiteIn(split.sites, p) then Direct else Proxy(target))
  {
    SplitDecides(split, allowLan, tag, Tun2socks, target, upstream, provider, p);
    hide Decide, PolicyOf, IsPrivate, SiteIn, FirstMatch;
  }

  /** The compiler, told so. */
  method CompileSplit(split: SplitInput, allowLan: bool, tag: string, tun: TunMode, target: ProxyTarget,
                      upstream: seq<Address>, provider: seq<Rule>) returns (rules: seq<Rule>)
    ensures forall p :: FirstMatch(rules, p).Some?
                        && DecidedAs(split, allowLan, tag, tun, target, upstream, provider, p,
                                     FirstMatch(rules, p).value)
  {
    rules := BuildRouteRules(split, allowLan, tag, tun, target, upstream, provider);
    hide Decide, PolicyOf, FirstMatch, DecidedAs;
    forall p
      ensures FirstMatch(rules, p).Some?
              && DecidedAs(split, allowLan, tag, tun, target, upstream, provider, p, FirstMatch(rules, p).value)
    {
      SplitDecides(split, allowLan, tag, tun, target, upstream, provider, p);
    }
  }
}
