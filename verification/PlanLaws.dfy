/** What becomes of provider JSON on its way into a plan, key by key and rule by rule. */
module PlanLaws {
  import opened Basics
  import opened Text
  import opened JsonValues
  import opened CheckerLaws
  import opened XrayConfig
  import O = Outbound
  import R = RouteRules

  // ---- References to local files ----

  /** A key the client takes for a file: in any case it ends in `file` or `filepath`, or is `masterkeylog`. */
  predicate SoundsLikeFile(name: string) {
    var low := Lowered(name);
    || (|low| >= 4 && low[|low| - 4..] == "file")
    || (|low| >= 8 && low[|low| - 8..] == "filepath")
    || low == "masterkeylog"
  }

  predicate LeadsToReference(value: Json, path: seq<Hop>, name: string) {
    var there := At(value, path);
    there.Some? && there.value.Obj? && Other(name) in there.value.fields && SoundsLikeFile(name)
  }

  lemma {:induction false} WayToReference(value: Json) returns (path: seq<Hop>, name: string)
    requires RefersToFile(value)
    ensures LeadsToReference(value, path, name)
    decreases value
  {
    hide Lowered;
    if value.Obj? {
      var key :| key in value.fields && (ProviderFileKey(key) || RefersToFile(value.fields[key]));
      if ProviderFileKey(key) {
        path, name := [], key.name;
      } else {
        var rest;
        rest, name := WayToReference(value.fields[key]);
        path := [Field(key)] + rest;
        assert path[1..] == rest;
      }
    } else {
      var i :| 0 <= i < |value.items| && RefersToFile(value.items[i]);
      var rest;
      rest, name := WayToReference(value.items[i]);
      path := [Item(i)] + rest;
      assert path[1..] == rest;
    }
  }

  lemma {:induction false} ReferenceIsFound(value: Json, path: seq<Hop>, name: string)
    requires LeadsToReference(value, path, name)
    ensures RefersToFile(value)
    decreases |path|
  {
    hide Lowered;
    if path == [] {
      assert ProviderFileKey(Other(name));
    } else if path[0].Field? {
      ReferenceIsFound(value.fields[path[0].key], path[1..], name);
    } else {
      ReferenceIsFound(value.items[path[0].index], path[1..], name);
    }
  }

  /** The client's search finds a reference exactly when some way leads to one. */
  lemma SearchFindsEveryReference(value: Json)
    ensures RefersToFile(value) <==> exists path, name :: LeadsToReference(value, path, name)
  {
    if RefersToFile(value) {
      var path, name := WayToReference(value);
    } else {
      forall path, name ensures !LeadsToReference(value, path, name) {
        if LeadsToReference(value, path, name) {
          ReferenceIsFound(value, path, name);
        }
      }
    }
  }

  // ---- A sanitized outbound ----

  /** Provider JSON of one of the eight protocols, in any case. */
  predicate OfAProxy(outbound: Json) {
    var protocol := Get(outbound, Protocol);
    protocol.Some? && protocol.value.Str? && Lowered(protocol.value.text) in EIGHT
  }

  predicate OfWireGuard(outbound: Json) {
    var protocol := Get(outbound, Protocol);
    protocol.Some? && protocol.value.Str? && Lowered(protocol.value.text) == "wireguard"
  }

  /** It is taken exactly when it is a proxy and no way through it leads to a file. */
  lemma SanitizeTakes(outbound: Json, preserve: bool)
    ensures Sanitize(outbound, preserve).Done? <==>
            OfAProxy(outbound) && !exists path, name :: LeadsToReference(outbound, path, name)
    ensures !Sanitize(outbound, preserve).Panics?
  {
    SearchFindsEveryReference(outbound);
    hide RefersToFile, LeadsToReference, Lowered, MarkedStream;
  }

  /** Every key of it stays as the provider wrote it, but these: no `sendThrough`; a lone outbound is tagged `proxy` and
      loses its chain; the stream settings of WireGuard go, and any others carry the mark. */
  lemma SanitizeKeeps(outbound: Json, preserve: bool, key: Key)
    requires Sanitize(outbound, preserve).Done?
    ensures var ob := Sanitize(outbound, preserve).value;
            && ob.Obj?
            && (key !in {SendThrough, ProxySettings, Tag, StreamSettings} ==> Get(ob, key) == Get(outbound, key))
            && Get(ob, SendThrough) == None
            && Get(ob, ProxySettings) == (if preserve then Get(outbound, ProxySettings) else None)
            && Get(ob, Tag) == (if preserve then Get(outbound, Tag) else Some(Str("proxy")))
            && (OfWireGuard(outbound) ==> Get(ob, StreamSettings) == None)
            && (!OfWireGuard(outbound) ==>
                Get(ob, StreamSettings) == Some(MarkedStream(Get(outbound, StreamSettings), preserve)))
  {
    hide RefersToFile, Lowered, MarkedStream;
    var bound := outbound.fields - {SendThrough};
    var tagged := if preserve then bound else (bound - {ProxySettings})[Tag := Str("proxy")];
    assert Lookup(tagged, StreamSettings) == Get(outbound, StreamSettings);
  }

  /** The stream settings and their socket options stay as they were, with the mark; a lone outbound loses its
      dialer. */
  lemma MarkedStreamKeeps(stream: Option<Json>, preserve: bool, key: Key)
    ensures var marked := MarkedStream(stream, preserve);
            var sockopt := Get(marked, Sockopt);
            && (key != Sockopt ==> Get(marked, key) == Within(stream, key))
            && Within(sockopt, Mark) == Some(Num(0x2024))
            && (key !in {Mark, DialerProxy} ==> Within(sockopt, key) == Within(Within(stream, Sockopt), key))
            && Within(sockopt, DialerProxy) == if preserve then Within(Within(stream, Sockopt), DialerProxy) else None
  {
  }

  /** In a profile, an outbound keeps the tag the provider gave it, or is numbered by its place; nothing else
      changes. */
  lemma TagIsKept(outbound: Json, index: nat, key: Key)
    requires outbound.Obj?
    ensures var tagged, own := Retagged(outbound, index), Get(outbound, Tag);
            && (own.Some? && own.value.Str? && own.value.text != "" ==> Get(tagged, Tag) == own)
            && (!(own.Some? && own.value.Str? && own.value.text != "") ==>
                  Get(tagged, Tag) == Some(Str(if index == 0 then "proxy" else "proxy-" + PrintNat(index + 1))))
            && (key != Tag ==> Get(tagged, key) == Get(outbound, key))
  {
    hide PrintNat;
  }

  /** How many of the first `n` outbounds are proxies. */
  function ProxyCount(outbounds: seq<Json>, n: nat): nat
    requires n <= |outbounds|
  {
    if n == 0 then 0 else ProxyCount(outbounds, n - 1) + if OfAProxy(outbounds[n - 1]) then 1 else 0
  }

  lemma ReadableTakes(outbounds: seq<Json>, i: nat)
    requires i < |outbounds| && AllReadable(outbounds)
    ensures Sanitize(outbounds[i], true).Done? <==> OfAProxy(outbounds[i])
    ensures Sanitize(outbounds[i], true).Done? ==> Sanitize(outbounds[i], true).value.Obj?
  {
    hide RefersToFile, Lowered, MarkedStream;
    assert IsSupported(outbounds[i]) <==> OfAProxy(outbounds[i]);
  }

  /** The proxies of a profile are its proxy outbounds, all of them and in order, sanitized and tagged. */
  lemma {:induction false} ProxiesInOrder(outbounds: seq<Json>, n: nat, i: nat)
    requires n <= |outbounds| && AllReadable(outbounds)
    ensures |ProxiesUpTo(outbounds, n)| == ProxyCount(outbounds, n)
    ensures i < n && OfAProxy(outbounds[i]) ==>
              && ProxyCount(outbounds, i) < ProxyCount(outbounds, n)
              && Sanitize(outbounds[i], true).Done?
              && ProxiesUpTo(outbounds, n)[ProxyCount(outbounds, i)] == Retagged(Sanitize(outbounds[i], true).value, i)
    decreases n
  {
    if n > 0 {
      ReadableTakes(outbounds, n - 1);
      ProxiesInOrder(outbounds, n - 1, i);
      hide Retagged, Sanitize, OfAProxy, AllReadable;
    }
  }

  // ---- The rules that stay ----

  predicate NamesKey(rule: Json, keys: set<Key>) {
    rule.Obj? && exists key :: key in keys && key in rule.fields
  }

  /** An address selector that needs a data file, which is not there. */
  predicate ReadsData(selector: Json) {
    && selector.Str?
    && var text := Lowered(selector.text);
    && ((|text| >= 6 && text[..6] == "geoip:") || (|text| >= 4 && text[..4] == "ext:")
        || (|text| >= 7 && text[..7] == "ext-ip:"))
  }

  predicate NeedsData(rule: Json) {
    exists selector :: selector in Flat(ItemsAt(rule, Ip)) && ReadsData(selector)
  }

  predicate TouchesLocal(rule: Json, world: World) {
    exists selector :: selector in Flat(ItemsAt(rule, Ip)) && world.isLocal(selector)
  }

  /** A rule of the provider stays exactly when it is about addresses, ports, protocols or users; not about names,
      applications or inbounds, which are the user's; needs no data file; leads to an outbound or balancer that exists;
      and opens no local network. */
  predicate Stays(rule: Json, proxies: seq<Json>, balancers: seq<Json>, world: World) {
    && NamesKey(rule, {Protocol, Ip, Port, Source, SourcePort, User, Attrs})
    && !NamesKey(rule, {Domain, Process, InboundTag})
    && !NeedsData(rule)
    && (|| Get(rule, OutboundTag) in {Some(Str("direct")), Some(Str("block"))}
        || IsTagOf(proxies, Get(rule, OutboundTag)) || IsTagOf(balancers, Get(rule, BalancerTag)))
    && !(Get(rule, OutboundTag) == Some(Str("direct")) && TouchesLocal(rule, world))
  }

  lemma InTags(values: seq<Json>, tag: Option<Json>)
    ensures Names(AsText(tag), Tags(values)) <==> IsTagOf(values, tag)
  {
  }

  lemma SafeRuleMeans(rule: Json, proxies: seq<Json>, balancers: seq<Json>, world: World)
    ensures SafeRule(rule, Tags(proxies), Tags(balancers), world) <==> Stays(rule, proxies, balancers, world)
  {
    InTags(proxies, Get(rule, OutboundTag));
    InTags(balancers, Get(rule, BalancerTag));
    KeysMean(rule);
    SelectorsMean(rule, world);
    hide Tags, IsTagOf, NamesKey, NeedsData, TouchesLocal, SomeItem, IsExternalSelector;
    TextIsStr(rule, OutboundTag, "direct");
    TextIsStr(rule, OutboundTag, "block");
  }

  lemma KeysMean(rule: Json)
    ensures NamesKey(rule, {Domain, Process, InboundTag}) <==>
            rule.Obj? && !(rule.fields.Keys !! {Domain, Process, InboundTag})
    ensures NamesKey(rule, {Protocol, Ip, Port, Source, SourcePort, User, Attrs}) <==>
            rule.Obj? && !(rule.fields.Keys !! {Protocol, Ip, Port, Source, SourcePort, User, Attrs})
  {
    if rule.Obj? {
      Meets(rule.fields.Keys, {Domain, Process, InboundTag});
      Meets(rule.fields.Keys, {Protocol, Ip, Port, Source, SourcePort, User, Attrs});
    }
  }

  lemma Meets(a: set<Key>, b: set<Key>)
    ensures !(a !! b) <==> exists key :: key in b && key in a
  {
  }

  lemma SomeItemMeans(items: Option<seq<Json>>, p: Json -> bool)
    ensures SomeItem(items, p) <==> exists item :: item in Flat(items) && p(item)
  {
    if item :| item in Flat(items) && p(item) {
      var i :| 0 <= i < |items.value| && items.value[i] == item;
      assert p(items.value[i]);
    }
    if SomeItem(items, p) {
      var i :| 0 <= i < |items.value| && p(items.value[i]);
      assert items.value[i] in Flat(items);
    }
  }

  lemma ReadsDataMeans(selector: Json)
    ensures IsExternalSelector(selector) <==> ReadsData(selector)
  {
    hide Lowered;
  }

  lemma SelectorsMean(rule: Json, world: World)
    ensures SomeItem(ItemsAt(rule, Ip), IsExternalSelector) <==> NeedsData(rule)
    ensures SomeItem(ItemsAt(rule, Ip), world.isLocal) <==> TouchesLocal(rule, world)
  {
    SomeItemMeans(ItemsAt(rule, Ip), IsExternalSelector);
    SomeItemMeans(ItemsAt(rule, Ip), world.isLocal);
    forall selector ensures IsExternalSelector(selector) <==> ReadsData(selector) { ReadsDataMeans(selector); }
    hide IsExternalSelector, ReadsData, SomeItem;
  }

  /** The kept rules are exactly those, in the provider's order. */
  lemma KeptRules(profile: Option<Json>, proxies: seq<Json>, balancers: Option<seq<Json>>, world: World)
    ensures var kept := SafeRules(profile, proxies, balancers, world);
            && (forall rule :: rule in kept <==>
                  rule in ProfileRules(profile) && Stays(rule, proxies, Flat(balancers), world))
            && kept == Filter(ProfileRules(profile), Safe(Tags(proxies), Tags(Flat(balancers)), world))
  {
    FilterMembers(ProfileRules(profile), Safe(Tags(proxies), Tags(Flat(balancers)), world));
    forall rule
      ensures SafeRule(rule, Tags(proxies), Tags(Flat(balancers)), world) <==>
              Stays(rule, proxies, Flat(balancers), world)
    {
      SafeRuleMeans(rule, proxies, Flat(balancers), world);
    }
    hide SafeRule, Stays, Tags;
  }

  // ---- The target ----

  /** Where one rule leads, a balancer before an outbound. */
  predicate LeadsTo(rule: Json, proxies: seq<Json>, balancers: seq<Json>, target: R.ProxyTarget) {
    if IsTagOf(balancers, Get(rule, BalancerTag))
    then Get(rule, BalancerTag) == Some(Str(target.tag)) && target.Balancer?
    else IsTagOf(proxies, Get(rule, OutboundTag)) && Get(rule, OutboundTag) == Some(Str(target.tag)) && target.Outbound?
  }

  predicate LeadsNowhere(rule: Json, proxies: seq<Json>, balancers: seq<Json>) {
    !IsTagOf(balancers, Get(rule, BalancerTag)) && !IsTagOf(proxies, Get(rule, OutboundTag))
  }

  lemma RuleTargetMeans(rule: Json, proxies: seq<Json>, balancers: seq<Json>)
    ensures var target := RuleTarget(rule, Tags(proxies), Tags(balancers));
            && (target.None? <==> LeadsNowhere(rule, proxies, balancers))
            && (target.Some? ==> LeadsTo(rule, proxies, balancers, target.value))
  {
    InTags(proxies, Get(rule, OutboundTag));
    InTags(balancers, Get(rule, BalancerTag));
    hide Tags, IsTagOf;
  }

  /** The effective target is that of the last rule of the provider that leads anywhere; without one it is a balancer,
      and without balancers the first proxy. */
  lemma TargetIsTheLast(profile: Json, proxies: seq<Json>, balancers: Option<seq<Json>>, world: World, i: nat)
    requires proxies != []
    ensures var rules, target := ProfileRules(Some(profile)), TargetOf(profile, proxies, balancers, world);
            && (i < |rules| && !LeadsNowhere(rules[i], proxies, Flat(balancers))
                && (forall k :: i < k < |rules| ==> LeadsNowhere(rules[k], proxies, Flat(balancers))) ==>
                  LeadsTo(rules[i], proxies, Flat(balancers), target))
            && ((forall k :: 0 <= k < |rules| ==> LeadsNowhere(rules[k], proxies, Flat(balancers))) ==>
                  target == if Tags(Flat(balancers)) != {} then R.Balancer(world.pick(Tags(Flat(balancers))))
                            else R.Outbound(TagOf(proxies[0])))
  {
    var rules := ProfileRules(Some(profile));
    hide Tags, LeadsTo, LeadsNowhere, RuleTarget, ProfileRules;
    if i < |rules| && !LeadsNowhere(rules[i], proxies, Flat(balancers))
       && forall k :: i < k < |rules| ==> LeadsNowhere(rules[k], proxies, Flat(balancers)) {
      LastIsFound(rules, proxies, Flat(balancers), i);
    }
    if forall k :: 0 <= k < |rules| ==> LeadsNowhere(rules[k], proxies, Flat(balancers)) {
      NoneIsFound(rules, proxies, Flat(balancers));
    }
  }

  lemma {:induction false} LastIsFound(rules: seq<Json>, proxies: seq<Json>, balancers: seq<Json>, i: nat)
    requires i < |rules| && !LeadsNowhere(rules[i], proxies, balancers)
    requires forall k :: i < k < |rules| ==> LeadsNowhere(rules[k], proxies, balancers)
    ensures var target := LastTarget(rules, Tags(proxies), Tags(balancers));
            target.Some? && LeadsTo(rules[i], proxies, balancers, target.value)
    decreases |rules|
  {
    hide Tags, LeadsTo, LeadsNowhere, RuleTarget;
    var last := |rules| - 1;
    RuleTargetMeans(rules[last], proxies, balancers);
    if i < last {
      LastIsFound(rules[..last], proxies, balancers, i);
    }
  }

  lemma {:induction false} NoneIsFound(rules: seq<Json>, proxies: seq<Json>, balancers: seq<Json>)
    requires forall k :: 0 <= k < |rules| ==> LeadsNowhere(rules[k], proxies, balancers)
    ensures LastTarget(rules, Tags(proxies), Tags(balancers)).None?
    decreases |rules|
  {
    hide Tags, LeadsTo, LeadsNowhere, RuleTarget;
    if rules != [] {
      var last := |rules| - 1;
      RuleTargetMeans(rules[last], proxies, balancers);
      NoneIsFound(rules[..last], proxies, balancers);
    }
  }

  // ---- The plan of a profile ----

  /** A profile is refused when a proxy of it refers to a file; it is a plan of its own exactly when it has several
      proxies, balancers or an observatory; and then the plan carries all of these as the provider wrote them. */
  lemma ProfilePlanCarries(profile: Json, world: World)
    ensures var outbounds, plan := Flat(ItemsAt(profile, Outbounds)), ProfilePlan(profile, world);
            && ((exists i :: 0 <= i < |outbounds| && IsSupported(outbounds[i]) && RefersToFile(outbounds[i])) ==>
                plan.Refused?)
            && (plan.Done? ==>
                  var proxies := ProxiesUpTo(outbounds, |outbounds|);
                  && |proxies| >= 1
                  && (plan.value.None? <==>
                      |proxies| == 1 && Flat(AsItems(Within(Get(profile, Routing), Balancers))) == []
                      && Get(profile, Observatory).None? && Get(profile, BurstObservatory).None?)
                  && (plan.value.Some? ==>
                        && plan.value.value.proxies == proxies
                        && Flat(plan.value.value.balancers) == Flat(AsItems(Within(Get(profile, Routing), Balancers)))
                        && plan.value.value.observatory == Get(profile, Observatory)
                        && plan.value.value.burstObservatory == Get(profile, BurstObservatory)))
  {
    hide ProxiesUpTo, TagsUsable, UsableBalancers, TargetOf, SafeRules, IsSupported, RefersToFile, Tags;
  }

  // ---- Validation of a server without provider JSON ----

  /** What a user may enter: a known protocol in any case; for WireGuard both keys; otherwise a known transport, and for
      Hysteria its own transport with TLS. */
  predicate Enterable(s: O.Server) {
    var protocol := Lowered(ProtocolSpelling(s.protocol));
    && protocol in EIGHT
    && (protocol == "wireguard" ==> Trim(s.uuid) != "" && s.publicKey.Some? && Trim(s.publicKey.value) != "")
    && (protocol != "wireguard" ==> !s.transport.OtherTransport?)
    && (protocol == "hysteria" ==> s.transport == O.HysteriaTransport && Lowered(SecuritySpelling(s.security)) == "tls")
  }

  lemma ValidatedIsEnterable(loc: Location, world: World)
    requires loc.rawProfile.None? && loc.rawOutbound.None?
    ensures ValidateServer(loc, world).Done? <==> Enterable(loc.server)
  {
    EmptyIsTrimmed();
    hide Lowered, Trim;
    assert "hysteria" != "wireguard";
  }

  lemma EmptyIsTrimmed()
    ensures Trim("") == ""
  {
  }
}
