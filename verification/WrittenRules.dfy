/** The routing rules as they are written into the main document, and what a reader of the document makes of them. */
module WrittenRules {
  import opened Basics
  import opened Addresses
  import opened JsonValues
  import opened OutboundJson
  import opened XrayConfig
  import opened XrayDocuments
  import R = RouteRules

  // ---- Reading ----

  function ReadTarget(rule: Json): Option<R.Target> {
    var balancer, outbound := TextAt(rule, BalancerTag), TextAt(rule, OutboundTag);
    if balancer.Some? then Some(R.Proxy(R.Balancer(balancer.value)))
    else if outbound.None? then None
    else if outbound.value == "dns-out" then Some(R.DnsOut)
    else if outbound.value == "direct" then Some(R.Direct)
    else if outbound.value == "block" then Some(R.Block)
    else Some(R.Proxy(R.Outbound(outbound.value)))
  }

  /** What is read from each of the texts of a list. */
  function ReadAll<T>(items: seq<Json>, read: string -> Option<T>): Option<seq<T>> {
    if items == [] then Some([])
    else
      var rest := ReadAll(items[1..], read);
      if items[0].Str? && read(items[0].text).Some? && rest.Some? then Some([read(items[0].text).value] + rest.value)
      else None
  }

  function ReadPattern(): string -> Option<R.Pattern> {
    text =>
      if "domain:" <= text then Some(R.Suffix(text[7..]))
      else if "full:" <= text then Some(R.Full(text[5..]))
      else None
  }

  function ReadCondition(rule: Json, read: string -> Option<Prefix>): Option<R.Condition> {
    if Get(rule, InboundTag).Some? then
      var tags := Flat(ItemsAt(rule, InboundTag));
      if |tags| == 1 && tags[0].Str? && Get(rule, Port) == Some(Num(53)) then Some(R.DnsPort(tags[0].text)) else None
    else if Get(rule, Key.Ip).Some? then
      var prefixes := ReadAll(Flat(ItemsAt(rule, Key.Ip)), read);
      if prefixes.Some? then Some(R.Ip(prefixes.value)) else None
    else if Get(rule, Key.Process).Some? then
      var names := Flat(ItemsAt(rule, Key.Process));
      if |names| == 1 && names[0].Str? then Some(R.Process(names[0].text)) else None
    else if Get(rule, Key.Domain).Some? then
      var patterns := ReadAll(Flat(ItemsAt(rule, Key.Domain)), ReadPattern());
      if patterns.Some? then Some(R.Domain(patterns.value)) else None
    else if Get(rule, Network) == Some(Str("tcp,udp")) then Some(R.AnyNetwork)
    else None
  }

  function ReadRule(rule: Json, read: string -> Option<Prefix>): Option<R.Rule> {
    var condition, target := ReadCondition(rule, read), ReadTarget(rule);
    if Get(rule, Type) == Some(Str("field")) && condition.Some? && target.Some?
    then Some(R.Rule(condition.value, target.value))
    else None
  }

  // ---- A rule reads back as it was ----

  lemma {:induction false} TextsReadBack<T>(texts: seq<string>, values: seq<T>, read: string -> Option<T>)
    requires |texts| == |values| && forall i :: 0 <= i < |texts| ==> read(texts[i]) == Some(values[i])
    ensures ReadAll(Texts(texts).items, read) == Some(values)
  {
    if texts != [] {
      TextsReadBack(texts[1..], values[1..], read);
      assert Texts(texts).items[1..] == Texts(texts[1..]).items;
      assert values == [values[0]] + values[1..];
    }
  }

  lemma PatternReadsBack(pattern: R.Pattern)
    ensures ReadPattern()(PatternText(pattern)) == Some(pattern)
  {
    match pattern
    case Suffix(name) => assert ("domain:" + name)[7..] == name;
    case Full(name) =>
      assert ("full:" + name)[5..] == name;
      assert ("full:" + name)[0] == 'f';
  }

  /** The name of a proxy is none of the reserved ones. */
  predicate Nameable(target: R.Target) {
    target.Proxy? && target.via.Outbound? ==> target.via.tag !in RESERVED_TAGS
  }

  lemma TargetReadsBack(target: R.Target, fields: map<Key, Json>)
    requires Nameable(target)
    requires OutboundTag !in fields && BalancerTag !in fields
    ensures ReadTarget(Obj(Join(fields, RuleTargetJson(target)))) == Some(target)
  {
    var rule := Obj(Join(fields, RuleTargetJson(target)));
    var written := RuleTargetJson(target);
    assert written.Keys <= {OutboundTag, BalancerTag};
    assert Get(rule, OutboundTag) == Get(Obj(written), OutboundTag)
           && Get(rule, BalancerTag) == Get(Obj(written), BalancerTag);
    assert "dns-out" != "direct" && "dns-out" != "block" && "direct" != "block";
  }

  /** Keys a condition is written under. */
  const CONDITION_KEYS := {InboundTag, Port, Key.Ip, Key.Process, Key.Domain, Network}

  lemma ConditionReadsBack(condition: R.Condition, world: World, read: string -> Option<Prefix>, rule: Json)
    requires !condition.Provider? && rule.Obj? && forall prefix :: read(world.show(prefix)) == Some(prefix)
    requires forall key :: key in CONDITION_KEYS ==> Get(rule, key) == Get(Obj(ConditionJson(condition, world)), key)
    ensures ReadCondition(rule, read) == Some(condition)
  {
    match condition
    case DnsPort(tag) => assert Texts([tag]).items == [Str(tag)];
    case Ip(prefixes) =>
      TextsReadBack(seq(|prefixes|, i requires 0 <= i < |prefixes| => world.show(prefixes[i])), prefixes, read);
    case Process(name) => assert Texts([name]).items == [Str(name)];
    case Domain(patterns) =>
      var texts := seq(|patterns|, i requires 0 <= i < |patterns| => PatternText(patterns[i]));
      forall i | 0 <= i < |patterns| ensures ReadPattern()(texts[i]) == Some(patterns[i]) {
        PatternReadsBack(patterns[i]);
      }
      TextsReadBack(texts, patterns, ReadPattern());
    case AnyNetwork =>
  }

  lemma ConditionKeys(condition: R.Condition, world: World)
    requires !condition.Provider?
    ensures ConditionJson(condition, world).Keys <= CONDITION_KEYS
  {
    hide Texts;
  }

  lemma TargetKeys(target: R.Target)
    ensures RuleTargetJson(target).Keys <= {OutboundTag, BalancerTag}
  {
  }

  /** A key of the middle group alone is read from it. */
  lemma MiddleGroup(a: map<Key, Json>, b: map<Key, Json>, c: map<Key, Json>, key: Key)
    requires key !in a && key !in c
    ensures Get(Obj(Join(Join(a, b), c)), key) == Get(Obj(b), key)
  {
  }

  lemma FirstGroup(a: map<Key, Json>, b: map<Key, Json>, c: map<Key, Json>, key: Key)
    requires key !in b && key !in c
    ensures Get(Obj(Join(Join(a, b), c)), key) == Get(Obj(a), key)
  {
  }

  lemma RuleFields(rule: R.Rule, world: World)
    requires !rule.condition.Provider?
    ensures var fields := Join(One(Type, Str("field")), ConditionJson(rule.condition, world));
            var written := RuleJson(rule, world);
            && written == Obj(Join(fields, RuleTargetJson(rule.target)))
            && OutboundTag !in fields && BalancerTag !in fields
            && Get(written, Type) == Some(Str("field"))
            && forall key :: key in CONDITION_KEYS ==>
               Get(written, key) == Get(Obj(ConditionJson(rule.condition, world)), key)
  {
    hide ConditionJson, RuleTargetJson, Clean, CleanFields;
    ConditionKeys(rule.condition, world);
    TargetKeys(rule.target);
    var head, last := One(Type, Str("field")), RuleTargetJson(rule.target);
    var middle := ConditionJson(rule.condition, world);
    var written := RuleJson(rule, world);
    assert written == Obj(Join(Join(head, middle), last));
    hide RuleJson;
    forall key | key in CONDITION_KEYS
      ensures Get(written, key) == Get(Obj(middle), key)
    {
      MiddleGroup(head, middle, last, key);
    }
    FirstGroup(head, middle, last, Type);
  }

  /** Every own rule is read back from the document as it was compiled: its condition and its target, `dns-out` and
      `direct` included. */
  lemma RuleReadsBack(rule: R.Rule, world: World, read: string -> Option<Prefix>)
    requires !rule.condition.Provider? && Nameable(rule.target)
             && forall prefix :: read(world.show(prefix)) == Some(prefix)
    ensures ReadRule(RuleJson(rule, world), read) == Some(rule)
  {
    RuleFields(rule, world);
    hide ConditionJson, RuleTargetJson, RuleJson, ReadCondition, ReadTarget;
    ConditionReadsBack(rule.condition, world, read, RuleJson(rule, world));
    TargetReadsBack(rule.target, Join(One(Type, Str("field")), ConditionJson(rule.condition, world)));
  }

  // ---- The main document ----

  /** What the rules of the document mean, given what the provider's mean. */
  function ReadRules(rules: seq<Json>, read: string -> Option<Prefix>): Option<seq<R.Rule>> {
    if rules == [] then Some([])
    else
      var first, rest := ReadRule(rules[0], read), ReadRules(rules[1..], read);
      if first.Some? && rest.Some? then Some([first.value] + rest.value) else None
  }

  predicate AllNameable(rules: seq<R.Rule>) {
    forall i :: 0 <= i < |rules| ==> !rules[i].condition.Provider? && Nameable(rules[i].target)
  }

  lemma {:induction false} RulesReadBack(rules: seq<R.Rule>, world: World, read: string -> Option<Prefix>)
    requires AllNameable(rules) && OwnRules(rules) && forall prefix :: read(world.show(prefix)) == Some(prefix)
    ensures ReadRules(RulesJson(rules, world), read) == Some(rules)
  {
    hide ReadRule, RuleJson, Nameable;
    if rules != [] {
      RuleReadsBack(rules[0], world, read);
      RulesReadBack(rules[1..], world, read);
      var written := RulesJson(rules, world);
      assert written[1..] == RulesJson(rules[1..], world) && written[0] == RuleJson(rules[0], world);
      assert rules == [rules[0]] + rules[1..];
    }
  }

  /** The tag of the inbound that carries the traffic of a mode. */
  function InboundTagOf(tun: R.TunMode): string {
    match tun
    case XrayNative => "tun-in"
    case Tun2socks => "socks-in"
  }

  /** `build_xray_config`, from the split lists to the document: its rules are Varmlen's own around the provider's, and
      whoever reads them decides every packet as the split policy does, whatever the provider's rules mean. */
  method BuildMainDocument(loc: Location, plan: Plan, split: R.SplitInput, mode: string, tun: R.TunMode, allowLan: bool,
                           level: string, mtu: nat, upstream: seq<Address>, world: World,
                           ghost read: string -> Option<Prefix>)
    returns (doc: Json, ghost before: seq<R.Rule>, ghost after: seq<R.Rule>)
    requires GoodPlan(plan) && forall prefix :: read(world.show(prefix)) == Some(prefix)
    ensures OwnRules(before) && OwnRules(after)
    ensures doc == MainDocument(loc, plan, mode, tun, level, mtu, before, after, world)
    ensures var rules := Flat(AsItems(Within(Get(doc, Routing), Rules)));
            && |rules| == |before| + |plan.providerRules| + |after|
            && rules[|before|..|before| + |plan.providerRules|] == plan.providerRules
            && ReadRules(rules[..|before|], read) == Some(before)
            && ReadRules(rules[|before| + |plan.providerRules|..], read) == Some(after)
    ensures var effective := if mode == "proxy" then R.Tun2socks else tun;
            forall provider, p ::
              R.FirstMatch(before + provider + after, p)
              == Some(R.Decide(R.PolicyOf(split, allowLan, InboundTagOf(effective), effective, plan.target, upstream,
                                          provider), p))
  {
    hide R.FirstMatch, R.Decide, R.PolicyOf, ReadRules, GoodPlan, MainDocument, RulesJson, Nameable;
    var effective := if mode == "proxy" then R.Tun2socks else tun;
    var own, rest := R.CompileOwnRules(split, allowLan, InboundTagOf(effective), effective, plan.target, upstream);
    before, after := own, rest;
    TargetIsNameable(plan);
    doc := MainDocument(loc, plan, mode, tun, level, mtu, own, rest, world);
    RulesReadBack(before, world, read);
    RulesReadBack(after, world, read);
    WrittenInOrder(loc, plan, mode, tun, level, mtu, before, after, world);
    ThreeParts(RulesJson(before, world), plan.providerRules, RulesJson(after, world));
    WrittenLength(before, world);
    WrittenLength(after, world);
  }

  lemma ThreeParts(a: seq<Json>, b: seq<Json>, c: seq<Json>)
    ensures var all := a + b + c;
            all[..|a|] == a && all[|a|..|a| + |b|] == b && all[|a| + |b|..] == c
  {
  }

  lemma WrittenLength(rules: seq<R.Rule>, world: World)
    requires OwnRules(rules)
    ensures |RulesJson(rules, world)| == |rules|
  {
  }

  lemma TargetIsNameable(plan: Plan)
    requires GoodPlan(plan)
    ensures Nameable(R.Proxy(plan.target)) && Nameable(R.DnsOut) && Nameable(R.Direct)
  {
    if plan.target.Outbound? {
      var i :| 0 <= i < |plan.proxies| && TextAt(plan.proxies[i], Tag).Some?
               && TextAt(plan.proxies[i], Tag).value == plan.target.tag;
      assert GoodProxy(plan.proxies[i]);
    }
  }

  lemma WrittenInOrder(loc: Location, plan: Plan, mode: string, tun: R.TunMode, level: string, mtu: nat,
                       before: seq<R.Rule>, after: seq<R.Rule>, world: World)
    requires OwnRules(before) && OwnRules(after)
    ensures Flat(AsItems(Within(Get(MainDocument(loc, plan, mode, tun, level, mtu, before, after, world), Routing),
                                Rules)))
            == RulesJson(before, world) + plan.providerRules + RulesJson(after, world)
  {
    hide DnsJson, InboundJson, LogJson, SystemOutbounds, RulesJson, Observed, MainRouting;
    WrittenRouting(loc, plan, before, after, world);
    var inbound := if mode == "proxy" then InboundJson(R.Tun2socks, TUN_MTU) else InboundJson(tun, mtu);
    var sections := map[Log := LogJson(XrayLogLevel(level)), Dns := DnsJson(loc.rawProfile, world),
                        Inbounds := Arr([inbound]), Outbounds := Arr(plan.proxies + SystemOutbounds()),
                        Routing := MainRouting(loc, plan, before, after, world)];
    assert MainDocument(loc, plan, mode, tun, level, mtu, before, after, world) == Obj(Observed(sections, plan));
    SectionStays(sections, plan, Routing);
    assert sections[Routing] == MainRouting(loc, plan, before, after, world);
    hide MainDocument;
  }

  lemma SectionStays(sections: map<Key, Json>, plan: Plan, key: Key)
    requires key !in {Observatory, BurstObservatory}
    ensures Get(Obj(Observed(sections, plan)), key) == Get(Obj(sections), key)
  {
    hide Maybe;
  }

  lemma WrittenRouting(loc: Location, plan: Plan, before: seq<R.Rule>, after: seq<R.Rule>, world: World)
    requires OwnRules(before) && OwnRules(after)
    ensures Get(MainRouting(loc, plan, before, after, world), Rules)
            == Some(Arr(RulesJson(before, world) + plan.providerRules + RulesJson(after, world)))
  {
    hide RulesJson, RoutingOptions, Maybe, BalancersJson;
  }
}
