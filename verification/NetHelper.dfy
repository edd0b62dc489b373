/** The network helper: laying the tunnel's routing, and taking it away again. */
module NetHelper {
  import opened Basics
  import opened Addresses
  import opened Kernel
  import opened Marks

  const LOCAL_THROWS: seq<string> := [
    "10.0.0.0/8", "172.16.0.0/12", "192.168.0.0/16", "169.254.0.0/16", "100.64.0.0/10", "224.0.0.0/4",
    "255.255.255.255/32"]

  const LOCAL_THROWS6: seq<string> := ["fe80::/10", "fc00::/7", "ff00::/8"]

  // ---- Single commands ----

  function WithRule(rules: multiset<MarkRule>, rule: MarkRule): multiset<MarkRule> {
    rules - multiset{rule} + multiset{rule}
  }

  predicate HasMark(rules: multiset<MarkRule>, mark: nat) {
    MarkRule(mark, PhysTable) in rules || MarkRule(mark, DnsTable) in rules || MarkRule(mark, SplitTable) in rules
  }

  /** `ip rule del fwmark`: the rule of that mark that is evaluated first goes. */
  function WithoutMark(rules: multiset<MarkRule>, mark: nat): multiset<MarkRule> {
    if MarkRule(mark, PhysTable) in rules then rules - multiset{MarkRule(mark, PhysTable)}
    else if MarkRule(mark, DnsTable) in rules then rules - multiset{MarkRule(mark, DnsTable)}
    else rules - multiset{MarkRule(mark, SplitTable)}
  }

  function WithoutMarkTimes(rules: multiset<MarkRule>, mark: nat, n: nat): multiset<MarkRule> {
    if n == 0 || !HasMark(rules, mark) then rules else WithoutMarkTimes(WithoutMark(rules, mark), mark, n - 1)
  }

  function Throws(table: Table, names: seq<string>, n: nat): Table
    requires n <= |names|
  {
    if n == 0 then table else Throws(table, names, n - 1)[Network(names[n - 1]) := Throw]
  }

  predicate Pinnable(address: Address, v6: bool) {
    address.V6? == v6
  }

  /** Host routes to the first `n` servers of one family. */
  function Pinned(table: Table, servers: seq<Address>, n: nat, path: Path, v6: bool): Table
    requires n <= |servers|
  {
    if n == 0 then table
    else
      var before := Pinned(table, servers, n - 1, path, v6);
      if Pinnable(servers[n - 1], v6) then before[HostRoute(servers[n - 1]) := path] else before
  }

  function Family(servers: seq<Address>, n: nat, v6: bool): seq<Address>
    requires n <= |servers|
  {
    if n == 0 then []
    else Family(servers, n - 1, v6) + (if Pinnable(servers[n - 1], v6) then [servers[n - 1]] else [])
  }

  function Unpinned(table: Table, servers: seq<Address>, n: nat): Table
    requires n <= |servers|
  {
    if n == 0 then table else Unpinned(table, servers, n - 1) - {HostRoute(servers[n - 1])}
  }

  // ---- The whole of route-up and route-down ----

  /** Everything laid before the servers are pinned. */
  function Base(n: Net, path: Path, path6: Option<Path>): Net {
    var dns := n.(dns4 := n.dns4[Everything := Tun], rpFile := Some(n.rpFilter), rpFilter := 2,
                  rules4 := WithRule(n.rules4, MarkRule(DNS_MARK, DnsTable)));
    var bypass := Bypass(dns, false, path);
    if path6.None? then bypass else Bypass(bypass, true, path6.value)
  }

  /** The IPv4 servers pinned and written down. */
  function Pins4(n: Net, path: Path, servers: seq<Address>): Net {
    n.(main4 := Pinned(n.main4, servers, |servers|, path, false),
       serversFile := Some(Family(servers, |servers|, false)))
  }

  function Halves4(n: Net): Net {
    n.(main4 := n.main4[LowHalf := Tun][HighHalf := Tun])
  }

  function Pins6(n: Net, path6: Option<Path>, servers: seq<Address>): Net {
    if path6.None? then n.(servers6File := Some([]))
    else n.(main6 := Pinned(n.main6, servers, |servers|, path6.value, true),
            servers6File := Some(Family(servers, |servers|, true)))
  }

  function Halves6(n: Net): Net {
    n.(main6 := n.main6[LowHalf := Blackhole][HighHalf := Blackhole])
  }

  function Up(n: Net, path: Path, path6: Option<Path>, servers: seq<Address>): Net {
    Halves6(Pins6(Halves4(Pins4(Base(n, path, path6), path, servers)), path6, servers))
  }

  function WithoutTun(table: Table, destination: Destination): Table {
    if destination in table && table[destination] == Tun then table - {destination} else table
  }

  function Down(n: Net): Net {
    var main4 := WithoutTun(WithoutTun(n.main4, LowHalf), HighHalf);
    var main6 := n.main6 - {LowHalf} - {HighHalf};
    Net(
      if n.serversFile.Some? then Unpinned(main4, n.serversFile.value, |n.serversFile.value|) else main4,
      if n.servers6File.Some? then Unpinned(main6, n.servers6File.value, |n.servers6File.value|) else main6,
      map[], map[],
      map[], n.split4,
      WithoutMarks(n.rules4 - multiset{MarkRule(DNS_MARK, DnsTable)}), WithoutMarks(n.rules6),
      if n.rpFile.Some? then n.rpFile.value else n.rpFilter,
      None, None, None,
      n.splitChains)
  }

  function WithoutMarks(rules: multiset<MarkRule>): multiset<MarkRule> {
    WithoutMarkTimes(WithoutMarkTimes(rules, XRAY_DIAL_MARK, 4), BYPASS_MARK, 4)
  }

  // ---- The server never enters its own tunnel ----

  predicate IntoTun(table: Table, destination: Destination) {
    destination in table && table[destination] == Tun
  }

  /** While traffic is drawn into the tunnel, every IPv4 server has its own route on the physical path. */
  predicate AntiLoop(n: Net, servers: seq<Address>) {
    IntoTun(n.main4, LowHalf) || IntoTun(n.main4, HighHalf) ==>
      forall i :: 0 <= i < |servers| && servers[i].V4? ==>
        HostRoute(servers[i]) in n.main4 && n.main4[HostRoute(servers[i])].Physical?
  }

  /** Every state passed through since `earlier` was safe. */
  ghost predicate AntiLoopSince(seen: seq<Net>, earlier: seq<Net>, servers: seq<Address>) {
    earlier <= seen && forall i :: |earlier| <= i < |seen| ==> AntiLoop(seen[i], servers)
  }

  lemma {:induction false} PinnedKeepsPhysical(table: Table, servers: seq<Address>, n: nat, path: Path, v6: bool)
    requires n <= |servers| && path.Physical?
    ensures forall d :: d in table ==> d in Pinned(table, servers, n, path, v6)
    ensures forall d :: d in Pinned(table, servers, n, path, v6) ==>
              (d in table && Pinned(table, servers, n, path, v6)[d] == table[d])
              || (d.HostRoute? && Pinned(table, servers, n, path, v6)[d] == path)
    ensures forall i :: 0 <= i < n && Pinnable(servers[i], v6) ==>
              HostRoute(servers[i]) in Pinned(table, servers, n, path, v6)
              && Pinned(table, servers, n, path, v6)[HostRoute(servers[i])] == path
  {
    if n > 0 {
      PinnedKeepsPhysical(table, servers, n - 1, path, v6);
    }
  }

  /** Pins laid on top of a safe main table leave it safe. */
  lemma PinningIsSafe(n: Net, servers: seq<Address>, count: nat, path: Path)
    requires count <= |servers| && path.Physical? && AntiLoop(n, servers)
    ensures AntiLoop(n.(main4 := Pinned(n.main4, servers, count, path, false)), servers)
  {
    PinnedKeepsPhysical(n.main4, servers, count, path, false);
  }

  // ---- What a half-laid route-up still allows to be undone ----

  /** A host without a trace of the tunnel, and without host routes of its own to the servers. */
  predicate Clean(n: Net, servers: seq<Address>) {
    && LowHalf !in n.main4 && HighHalf !in n.main4 && LowHalf !in n.main6 && HighHalf !in n.main6
    && (forall i :: 0 <= i < |servers| ==> HostRoute(servers[i]) !in n.main4 && HostRoute(servers[i]) !in n.main6)
    && n.phys4 == map[] && n.phys6 == map[] && n.dns4 == map[]
    && MarkRule(DNS_MARK, DnsTable) !in n.rules4 && MarkRule(DNS_MARK, DnsTable) !in n.rules6
    && !HasMark(n.rules4, XRAY_DIAL_MARK) && !HasMark(n.rules4, BYPASS_MARK)
    && !HasMark(n.rules6, XRAY_DIAL_MARK) && !HasMark(n.rules6, BYPASS_MARK)
    && n.serversFile.None? && n.servers6File.None? && n.rpFile.None?
  }

  predicate Ours(rule: MarkRule) {
    rule == MarkRule(DNS_MARK, DnsTable) || rule == MarkRule(XRAY_DIAL_MARK, PhysTable)
    || rule == MarkRule(BYPASS_MARK, PhysTable)
  }

  /** `rules` is `before` with at most one of each rule route-up lays. */
  ghost predicate AtMostOurs(before: multiset<MarkRule>, rules: multiset<MarkRule>) {
    forall rule :: if Ours(rule) then rules[rule] <= 1 else rules[rule] == before[rule]
  }

  /** Every table but the main ones, and what route-down needs to put them back. */
  ghost predicate BaseUndoable(n: Net, p: Net) {
    && AtMostOurs(n.rules4, p.rules4)
    && AtMostOurs(n.rules6, p.rules6)
    && ((p.rpFile.None? && p.rpFilter == n.rpFilter) || p.rpFile == Some(n.rpFilter))
    && p.split4 == n.split4 && p.splitChains == n.splitChains
  }

  function DownMain4(p: Net): Table { Down(p).main4 }

  function DownMain6(p: Net): Table { Down(p).main6 }

  lemma OneMarkUndone(rules: multiset<MarkRule>, mark: nat)
    requires rules[MarkRule(mark, PhysTable)] <= 1
    requires MarkRule(mark, DnsTable) !in rules && MarkRule(mark, SplitTable) !in rules
    ensures WithoutMarkTimes(rules, mark, 4) == rules[MarkRule(mark, PhysTable) := 0]
  {
    if HasMark(rules, mark) {
      var after := WithoutMark(rules, mark);
      assert after == rules[MarkRule(mark, PhysTable) := 0];
      assert !HasMark(after, mark);
      assert WithoutMarkTimes(after, mark, 3) == after;
    } else {
      assert rules[MarkRule(mark, PhysTable) := 0] == rules;
    }
  }

  lemma MarksUndone(before: multiset<MarkRule>, rules: multiset<MarkRule>)
    requires AtMostOurs(before, rules) && rules[MarkRule(DNS_MARK, DnsTable)] == before[MarkRule(DNS_MARK, DnsTable)]
    requires !HasMark(before, XRAY_DIAL_MARK) && !HasMark(before, BYPASS_MARK)
    ensures WithoutMarks(rules) == before
  {
    hide WithoutMarkTimes;
    OneMarkUndone(rules, XRAY_DIAL_MARK);
    var r1 := WithoutMarkTimes(rules, XRAY_DIAL_MARK, 4);
    OneMarkUndone(r1, BYPASS_MARK);
    var r2 := WithoutMarkTimes(r1, BYPASS_MARK, 4);
    forall rule ensures r2[rule] == before[rule] {
    }
  }

  lemma RulesUndone(before: multiset<MarkRule>, rules: multiset<MarkRule>)
    requires AtMostOurs(before, rules)
    requires MarkRule(DNS_MARK, DnsTable) !in before
    requires !HasMark(before, XRAY_DIAL_MARK) && !HasMark(before, BYPASS_MARK)
    ensures WithoutMarks(rules - multiset{MarkRule(DNS_MARK, DnsTable)}) == before
  {
    MarksUndone(before, rules - multiset{MarkRule(DNS_MARK, DnsTable)});
  }

  lemma DownUndoes(n: Net, p: Net, servers: seq<Address>)
    requires Clean(n, servers) && BaseUndoable(n, p)
    requires p.rules6[MarkRule(DNS_MARK, DnsTable)] == n.rules6[MarkRule(DNS_MARK, DnsTable)]
    ensures Down(p) == n.(main4 := DownMain4(p), main6 := DownMain6(p))
  {
    RulesUndone(n.rules4, p.rules4);
    MarksUndone(n.rules6, p.rules6);
  }

  // ---- Pins and their removal ----

  lemma {:induction false} UnpinnedKeys(table: Table, servers: seq<Address>, n: nat)
    requires n <= |servers|
    ensures forall d :: d in Unpinned(table, servers, n) <==>
              d in table && !(d.HostRoute? && d.address in servers[..n])
    ensures forall d :: d in Unpinned(table, servers, n) ==> Unpinned(table, servers, n)[d] == table[d]
  {
    if n > 0 {
      UnpinnedKeys(table, servers, n - 1);
      assert servers[..n] == servers[..n - 1] + [servers[n - 1]];
    }
  }

  lemma {:induction false} PinnedKeys(table: Table, servers: seq<Address>, n: nat, path: Path, v6: bool)
    requires n <= |servers|
    ensures forall d :: d in Pinned(table, servers, n, path, v6) <==>
              d in table || (d.HostRoute? && d.address in Family(servers, n, v6))
    ensures forall d :: d in Pinned(table, servers, n, path, v6) ==>
              Pinned(table, servers, n, path, v6)[d]
              == if d.HostRoute? && d.address in Family(servers, n, v6) then path else table[d]
  {
    if n > 0 {
      PinnedKeys(table, servers, n - 1, path, v6);
    }
  }

  lemma {:induction false} FamilyMembers(servers: seq<Address>, n: nat, v6: bool)
    requires n <= |servers|
    ensures forall a :: a in Family(servers, n, v6) <==> a in servers[..n] && Pinnable(a, v6)
  {
    if n > 0 {
      FamilyMembers(servers, n - 1, v6);
      assert servers[..n] == servers[..n - 1] + [servers[n - 1]];
    }
  }

  /** Removing the recorded pins from a table they were laid on gives the table back. */
  lemma UnpinUndoesPin(table: Table, servers: seq<Address>, path: Path, v6: bool)
    requires forall i :: 0 <= i < |servers| ==> HostRoute(servers[i]) !in table
    ensures var list := Family(servers, |servers|, v6);
            Unpinned(Pinned(table, servers, |servers|, path, v6), list, |list|) == table
  {
    var list := Family(servers, |servers|, v6);
    var pinned := Pinned(table, servers, |servers|, path, v6);
    PinnedKeys(table, servers, |servers|, path, v6);
    FamilyMembers(servers, |servers|, v6);
    UnpinnedKeys(pinned, list, |list|);
    assert list[..|list|] == list && servers[..|servers|] == servers;
    var back := Unpinned(pinned, list, |list|);
    assert forall d :: d in back <==> d in table;
    assert back == table;
  }

  // ---- route-up ----

  /** How many commands that may fail each part of route-up has. */
  const DNS_COMMANDS: nat := 4

  const HALVES: nat := 2

  function BypassCommands(v6: bool): nat { 3 + if v6 then |LOCAL_THROWS6| else |LOCAL_THROWS| }

  function BaseCommands(path6: Option<Path>): nat {
    DNS_COMMANDS + BypassCommands(false) + if path6.Some? then BypassCommands(true) else 0
  }

  function PinCommands(servers: seq<Address>, v6: bool): nat { |Family(servers, |servers|, v6)| }

  function PinCommands6(path6: Option<Path>, servers: seq<Address>): nat {
    if path6.Some? then PinCommands(servers, true) else 0
  }

  function Commands(path6: Option<Path>, servers: seq<Address>): nat {
    BaseCommands(path6) + PinCommands(servers, false) + HALVES + PinCommands6(path6, servers) + HALVES
  }

  /** How many pins of the IPv4 loop are in place when command number `failed` fails inside it; 0 for any other
      command. */
  function LeftPins4(failed: int, path6: Option<Path>, servers: seq<Address>): nat {
    var first := BaseCommands(path6);
    if first <= failed < first + PinCommands(servers, false) then failed - first else 0
  }

  /** The same for the IPv6 loop, which comes after the two halves. */
  function LeftPins6(failed: int, path6: Option<Path>, servers: seq<Address>): nat {
    var first := BaseCommands(path6) + PinCommands(servers, false) + HALVES;
    if first <= failed < first + PinCommands6(path6, servers) then failed - first else 0
  }

  predicate SameMain(n: Net, p: Net) {
    && p.main4 == n.main4 && p.main6 == n.main6
    && p.serversFile == n.serversFile && p.servers6File == n.servers6File
  }

  /** Nothing but the base of the routing differs, and route-down can put it back. */
  ghost predicate BaseOnly(n: Net, p: Net) {
    && SameMain(n, p)
    && BaseUndoable(n, p)
    && p.rules6[MarkRule(DNS_MARK, DnsTable)] == n.rules6[MarkRule(DNS_MARK, DnsTable)]
  }

  /** Every state passed through since `earlier` had this main table. */
  ghost predicate SameMainSince(seen: seq<Net>, earlier: seq<Net>, main4: Table) {
    earlier <= seen && forall i :: |earlier| <= i < |seen| ==> seen[i].main4 == main4
  }

  lemma RuleChanges(before: multiset<MarkRule>, rules: multiset<MarkRule>, rule: MarkRule)
    requires AtMostOurs(before, rules) && Ours(rule)
    ensures AtMostOurs(before, rules - multiset{rule})
    ensures AtMostOurs(before, WithRule(rules, rule))
  {
  }

  lemma RuleStaysBase(n: Net, b: Net, v6: bool, rule: MarkRule)
    requires BaseOnly(n, b) && Ours(rule) && (!v6 || rule.table == PhysTable)
    ensures v6 ==>
              && BaseOnly(n, b.(rules6 := WithRule(b.rules6, rule)))
              && BaseOnly(n, b.(rules6 := b.rules6 - multiset{rule}))
    ensures !v6 ==>
              && BaseOnly(n, b.(rules4 := WithRule(b.rules4, rule)))
              && BaseOnly(n, b.(rules4 := b.rules4 - multiset{rule}))
  {
    hide AtMostOurs;
    RuleChanges(if v6 then n.rules6 else n.rules4, if v6 then b.rules6 else b.rules4, rule);
  }

  method TryThrows(k: Kernel, v6: bool, names: seq<string>) returns (ok: bool)
    modifies k
    ensures Ran(k.fails, old(k.asked), k.asked, ok, |names|)
    ensures SameMainSince(k.seen, old(k.seen), old(k.net).main4)
    ensures var b := old(k.net);
            ok ==> k.net == if v6 then b.(phys6 := Throws(b.phys6, names, |names|))
                            else b.(phys4 := Throws(b.phys4, names, |names|))
    ensures k.net == if v6 then old(k.net).(phys6 := k.net.phys6) else old(k.net).(phys4 := k.net.phys4)
  {
    ghost var b := k.net;
    for i := 0 to |names|
      invariant Ran(k.fails, old(k.asked), k.asked, true, i)
      invariant SameMainSince(k.seen, old(k.seen), b.main4)
      invariant k.net == if v6 then b.(phys6 := Throws(b.phys6, names, i)) else b.(phys4 := Throws(b.phys4, names, i))
    {
      var d := Network(names[i]);
      ok := k.Try(if v6 then k.net.(phys6 := k.net.phys6[d := Throw]) else k.net.(phys4 := k.net.phys4[d := Throw]));
      if !ok {
        return;
      }
    }
    ok := true;
  }

  /** `ip rule del` and `ip rule add`: one rule for the mark and table, however many there were. */
  method AddRule(k: Kernel, v6: bool, rule: MarkRule) returns (ok: bool)
    modifies k
    ensures Ran(k.fails, old(k.asked), k.asked, ok, 1)
    ensures SameMainSince(k.seen, old(k.seen), old(k.net).main4)
    ensures var b := old(k.net);
            k.net == if v6 then b.(rules6 := if ok then WithRule(b.rules6, rule) else b.rules6 - multiset{rule})
                     else b.(rules4 := if ok then WithRule(b.rules4, rule) else b.rules4 - multiset{rule})
    ensures forall n :: BaseOnly(n, old(k.net)) && Ours(rule) && rule.table == PhysTable ==> BaseOnly(n, k.net)
    ensures forall n :: BaseOnly(n, old(k.net)) && Ours(rule) && !v6 ==> BaseOnly(n, k.net)
  {
    hide BaseOnly;
    ghost var b := k.net;
    k.Do(if v6 then k.net.(rules6 := k.net.rules6 - multiset{rule})
         else k.net.(rules4 := k.net.rules4 - multiset{rule}));
    ok := k.Try(if v6 then k.net.(rules6 := k.net.rules6 + multiset{rule})
                else k.net.(rules4 := k.net.rules4 + multiset{rule}));
    forall n | BaseOnly(n, b) && Ours(rule) && (!v6 || rule.table == PhysTable)
      ensures BaseOnly(n, k.net)
    {
      RuleStaysBase(n, b, v6, rule);
    }
  }

  /** The tunnel device, the DNS policy route and the reverse-path filter. */
  method LayDns(k: Kernel) returns (ok: bool)
    modifies k
    ensures Ran(k.fails, old(k.asked), k.asked, ok, DNS_COMMANDS)
    ensures k.net.main4 == old(k.net).main4
    ensures SameMainSince(k.seen, old(k.seen), old(k.net).main4)
    ensures forall n :: BaseOnly(n, old(k.net)) && old(k.net).rpFile.None? ==> BaseOnly(n, k.net)
    ensures var b := old(k.net);
            ok ==> k.net == b.(dns4 := b.dns4[Everything := Tun], rpFile := Some(b.rpFilter), rpFilter := 2,
                               rules4 := WithRule(b.rules4, MarkRule(DNS_MARK, DnsTable)))
  {
    hide BaseOnly, WithRule;
    ok := k.Try(k.net);
    if !ok {
      return;
    }
    DnsStaysBase(k.net, k.net.dns4[Everything := Tun]);
    ok := k.Try(k.net.(dns4 := k.net.dns4[Everything := Tun]));
    if !ok {
      return;
    }
    ok := AddRule(k, false, MarkRule(DNS_MARK, DnsTable));
    if !ok {
      return;
    }
    FilterStaysBase(k.net);
    k.Do(k.net.(rpFile := Some(k.net.rpFilter)));
    ok := k.Try(k.net.(rpFilter := 2));
  }

  lemma PhysStaysBase(b: Net)
    ensures forall n, t :: BaseOnly(n, b) ==> BaseOnly(n, b.(phys4 := t)) && BaseOnly(n, b.(phys6 := t))
  {
    hide AtMostOurs;
  }

  lemma DnsStaysBase(b: Net, table: Table)
    ensures forall n :: BaseOnly(n, b) ==> BaseOnly(n, b.(dns4 := table))
  {
    hide AtMostOurs;
  }

  lemma FilterStaysBase(b: Net)
    ensures forall n :: BaseOnly(n, b) && b.rpFile.None? ==> BaseOnly(n, b.(rpFile := Some(b.rpFilter)))
    ensures forall n :: BaseOnly(n, b) && b.rpFile.None? ==> BaseOnly(n, b.(rpFile := Some(b.rpFilter)).(rpFilter := 2))
  {
    hide AtMostOurs;
  }

  function Bypass(b: Net, v6: bool, path: Path): Net {
    var dial, bypass := MarkRule(XRAY_DIAL_MARK, PhysTable), MarkRule(BYPASS_MARK, PhysTable);
    if v6 then b.(phys6 := Throws(b.phys6[Everything := path], LOCAL_THROWS6, |LOCAL_THROWS6|),
                  rules6 := WithRule(WithRule(b.rules6, dial), bypass))
    else b.(phys4 := Throws(b.phys4[Everything := path], LOCAL_THROWS, |LOCAL_THROWS|),
            rules4 := WithRule(WithRule(b.rules4, dial), bypass))
  }

  /** The physical bypass table of one family, and the rules of the two marks that use it. */
  method LayBypass(k: Kernel, v6: bool, path: Path) returns (ok: bool)
    modifies k
    ensures Ran(k.fails, old(k.asked), k.asked, ok, BypassCommands(v6))
    ensures SameMainSince(k.seen, old(k.seen), old(k.net).main4)
    ensures k.net.main4 == old(k.net).main4
    ensures forall n :: BaseOnly(n, old(k.net)) ==> BaseOnly(n, k.net)
    ensures ok ==> k.net == Bypass(old(k.net), v6, path)
  {
    hide BaseOnly, Throws, WithRule;
    var dial, bypass := MarkRule(XRAY_DIAL_MARK, PhysTable), MarkRule(BYPASS_MARK, PhysTable);
    PhysStaysBase(k.net);
    ok := k.Try(if v6 then k.net.(phys6 := k.net.phys6[Everything := path])
                else k.net.(phys4 := k.net.phys4[Everything := path]));
    if !ok {
      return;
    }
    ok := TryThrows(k, v6, if v6 then LOCAL_THROWS6 else LOCAL_THROWS);
    assert k.net == if v6 then old(k.net).(phys6 := k.net.phys6) else old(k.net).(phys4 := k.net.phys4);
    if !ok {
      return;
    }
    ok := AddRule(k, v6, dial);
    if !ok {
      return;
    }
    ok := AddRule(k, v6, bypass);
  }

  method LayBase(k: Kernel, path: Path, path6: Option<Path>) returns (ok: bool)
    modifies k
    ensures Ran(k.fails, old(k.asked), k.asked, ok, BaseCommands(path6))
    ensures SameMainSince(k.seen, old(k.seen), old(k.net).main4)
    ensures k.net.main4 == old(k.net).main4
    ensures forall n :: BaseOnly(n, old(k.net)) && old(k.net).rpFile.None? ==> BaseOnly(n, k.net)
    ensures ok ==> k.net == Base(old(k.net), path, path6)
  {
    hide BaseOnly, Throws, WithRule;
    ok := LayDns(k);
    if !ok {
      return;
    }
    ok := LayBypass(k, false, path);
    if !ok || path6.None? {
      return;
    }
    ok := LayBypass(k, true, path6.value);
  }

  /** The pin loop of one family. `laid` is how many servers it got through. */
  method PinServers(k: Kernel, servers: seq<Address>, path: Path, v6: bool) returns (ok: bool, ghost laid: nat)
    requires path.Physical?
    modifies k
    ensures laid <= |servers| && (ok ==> laid == |servers|)
    ensures Ran(k.fails, old(k.asked), k.asked, ok, PinCommands(servers, v6))
    ensures !ok ==> |Family(servers, laid, v6)| == k.asked - 1 - old(k.asked)
    ensures var b := old(k.net);
            k.net == if v6 then b.(main6 := Pinned(b.main6, servers, laid, path, true))
                     else b.(main4 := Pinned(b.main4, servers, laid, path, false))
    ensures AntiLoop(old(k.net), servers) ==> AntiLoopSince(k.seen, old(k.seen), servers)
  {
    ghost var b := k.net;
    for i := 0 to |servers|
      invariant Ran(k.fails, old(k.asked), k.asked, true, |Family(servers, i, v6)|)
      invariant k.net == if v6 then b.(main6 := Pinned(b.main6, servers, i, path, true))
                         else b.(main4 := Pinned(b.main4, servers, i, path, false))
      invariant AntiLoop(b, servers) ==> AntiLoopSince(k.seen, old(k.seen), servers)
    {
      hide AntiLoop;
      FamilyGrows(servers, i + 1, v6);
      if Pinnable(servers[i], v6) {
        var d := HostRoute(servers[i]);
        ok := k.Try(if v6 then k.net.(main6 := k.net.main6[d := path]) else k.net.(main4 := k.net.main4[d := path]));
        if AntiLoop(b, servers) {
          PinningSteps(b, servers, i, path, v6);
        }
        if !ok {
          return false, i;
        }
      }
    }
    return true, |servers|;
  }

  lemma {:induction false} FamilyGrows(servers: seq<Address>, n: nat, v6: bool)
    requires n <= |servers|
    ensures |Family(servers, n, v6)| <= PinCommands(servers, v6)
    decreases |servers| - n
  {
    if n < |servers| {
      FamilyGrows(servers, n + 1, v6);
    }
  }

  lemma PinningSteps(b: Net, servers: seq<Address>, i: nat, path: Path, v6: bool)
    requires i < |servers| && path.Physical? && AntiLoop(b, servers)
    ensures AntiLoop(if v6 then b.(main6 := Pinned(b.main6, servers, i, path, true))
                     else b.(main4 := Pinned(b.main4, servers, i, path, false)), servers)
    ensures AntiLoop(if v6 then b.(main6 := Pinned(b.main6, servers, i + 1, path, true))
                     else b.(main4 := Pinned(b.main4, servers, i + 1, path, false)), servers)
  {
    PinningIsSafe(b, servers, i, path);
    PinningIsSafe(b, servers, i + 1, path);
  }

  /** With every IPv4 server pinned, drawing traffic into the tunnel is safe. */
  lemma HalvesAreSafe(b: Net, path: Path, servers: seq<Address>)
    requires path.Physical?
    ensures var t := Pinned(b.main4, servers, |servers|, path, false);
            forall n: Net :: n.main4 == t || n.main4 == t[LowHalf := Tun]
              || n.main4 == t[LowHalf := Tun][HighHalf := Tun]
              ==> AntiLoop(n, servers)
  {
    PinnedKeepsPhysical(b.main4, servers, |servers|, path, false);
  }

  // ---- route-down ----

  function RulesOf(n: Net, v6: bool): multiset<MarkRule> {
    if v6 then n.rules6 else n.rules4
  }

  function WithRules(n: Net, v6: bool, rules: multiset<MarkRule>): Net {
    if v6 then n.(rules6 := rules) else n.(rules4 := rules)
  }

  lemma MarkTimes(rules: multiset<MarkRule>, mark: nat, n: nat)
    ensures WithoutMarkTimes(rules, mark, n)
            == if n == 0 || !HasMark(rules, mark) then rules
              else WithoutMarkTimes(WithoutMark(rules, mark), mark, n - 1)
  {
  }

  method DropMark(k: Kernel, v6: bool, mark: nat)
    modifies k
    ensures k.asked == old(k.asked)
    ensures k.net == WithRules(old(k.net), v6, WithoutMarkTimes(RulesOf(old(k.net), v6), mark, 4))
    ensures NoHalves(old(k.net).main4) ==> NoHalvesSince(k.seen, old(k.seen))
  {
    hide WithoutMarkTimes, HasMark, WithoutMark, IntoTun;
    ghost var goal := WithoutMarkTimes(RulesOf(k.net, v6), mark, 4);
    var left := 4;
    var rules := RulesOf(k.net, v6);
    while left > 0 && HasMark(rules, mark)
      invariant 0 <= left <= 4
      invariant WithoutMarkTimes(rules, mark, left) == goal
      invariant k.net == WithRules(old(k.net), v6, rules) && k.asked == old(k.asked)
      invariant NoHalves(old(k.net).main4) ==> NoHalvesSince(k.seen, old(k.seen))
    {
      MarkTimes(rules, mark, left);
      rules := WithoutMark(rules, mark);
      left := left - 1;
      k.Do(WithRules(k.net, v6, rules));
    }
    MarkTimes(rules, mark, left);
  }

  method UnpinServers(k: Kernel, v6: bool, list: seq<Address>)
    modifies k
    ensures k.asked == old(k.asked)
    ensures k.net == if v6 then old(k.net).(main6 := Unpinned(old(k.net).main6, list, |list|))
                     else old(k.net).(main4 := Unpinned(old(k.net).main4, list, |list|))
    ensures NoHalves(old(k.net).main4) ==> NoHalvesSince(k.seen, old(k.seen)) && NoHalves(k.net.main4)
  {
    ghost var b := k.net;
    for i := 0 to |list|
      invariant k.asked == old(k.asked)
      invariant k.net == if v6 then b.(main6 := Unpinned(b.main6, list, i)) else b.(main4 := Unpinned(b.main4, list, i))
      invariant NoHalves(b.main4) ==> NoHalvesSince(k.seen, old(k.seen)) && NoHalves(k.net.main4)
    {
      var d := HostRoute(list[i]);
      k.Do(if v6 then k.net.(main6 := k.net.main6 - {d}) else k.net.(main4 := k.net.main4 - {d}));
    }
  }

  predicate NoHalves(main4: Table) {
    !IntoTun(main4, LowHalf) && !IntoTun(main4, HighHalf)
  }

  ghost predicate NoHalvesSince(seen: seq<Net>, earlier: seq<Net>) {
    earlier <= seen && forall i :: |earlier| <= i < |seen| ==> NoHalves(seen[i].main4)
  }

  /** Traffic stops being drawn into the tunnel before anything else is touched. */
  method DropTunnel(k: Kernel, ghost servers: seq<Address>)
    modifies k
    ensures k.asked == old(k.asked)
    ensures var b := old(k.net);
            k.net == b.(main4 := WithoutTun(WithoutTun(b.main4, LowHalf), HighHalf))
    ensures NoHalves(k.net.main4)
    ensures AntiLoop(old(k.net), servers) ==> AntiLoopSince(k.seen, old(k.seen), servers)
  {
    k.Do(k.net.(main4 := WithoutTun(k.net.main4, LowHalf)));
    k.Do(k.net.(main4 := WithoutTun(k.net.main4, HighHalf)));
  }

  method DropDnsPolicy(k: Kernel)
    requires NoHalves(k.net.main4)
    modifies k
    ensures k.asked == old(k.asked)
    ensures var b := old(k.net);
            k.net == b.(rules4 := b.rules4 - multiset{MarkRule(DNS_MARK, DnsTable)}, dns4 := map[])
    ensures NoHalvesSince(k.seen, old(k.seen))
  {
    k.Do(k.net.(rules4 := k.net.rules4 - multiset{MarkRule(DNS_MARK, DnsTable)}));
    k.Do(k.net.(dns4 := map[]));
  }

  /** The IPv6 blackholes, and the IPv6 pins route-up wrote down. */
  method DropV6(k: Kernel)
    requires NoHalves(k.net.main4)
    modifies k
    ensures k.asked == old(k.asked)
    ensures k.net == old(k.net).(main6 := DownMain6(old(k.net)), servers6File := None)
    ensures NoHalvesSince(k.seen, old(k.seen))
  {
    hide WithoutMarks, IntoTun;
    k.Do(k.net.(main6 := k.net.main6 - {LowHalf}));
    k.Do(k.net.(main6 := k.net.main6 - {HighHalf}));
    if k.net.servers6File.Some? {
      UnpinServers(k, true, k.net.servers6File.value);
      k.Do(k.net.(servers6File := None));
    }
  }

  method DropMarks(k: Kernel)
    requires NoHalves(k.net.main4)
    modifies k
    ensures k.asked == old(k.asked)
    ensures var b := old(k.net);
            k.net == b.(rules4 := WithoutMarks(b.rules4), rules6 := WithoutMarks(b.rules6))
    ensures NoHalvesSince(k.seen, old(k.seen))
  {
    hide WithoutMarkTimes, IntoTun;
    DropMark(k, false, XRAY_DIAL_MARK);
    DropMark(k, true, XRAY_DIAL_MARK);
    DropMark(k, false, BYPASS_MARK);
    DropMark(k, true, BYPASS_MARK);
  }

  method DropPins(k: Kernel)
    requires NoHalves(k.net.main4)
    modifies k
    ensures k.asked == old(k.asked)
    ensures var b := old(k.net);
            k.net == b.(main4 := if b.serversFile.None? then b.main4
                                 else Unpinned(b.main4, b.serversFile.value, |b.serversFile.value|),
                        serversFile := None)
    ensures NoHalvesSince(k.seen, old(k.seen)) && NoHalves(k.net.main4)
  {
    hide IntoTun;
    if k.net.serversFile.Some? {
      UnpinServers(k, false, k.net.serversFile.value);
      k.Do(k.net.(serversFile := None));
    }
  }

  method RestoreFilter(k: Kernel)
    requires NoHalves(k.net.main4)
    modifies k
    ensures k.asked == old(k.asked)
    ensures var b := old(k.net);
            k.net == b.(rpFilter := if b.rpFile.Some? then b.rpFile.value else b.rpFilter, rpFile := None)
    ensures NoHalvesSince(k.seen, old(k.seen))
  {
    if k.net.rpFile.Some? {
      k.Do(k.net.(rpFilter := k.net.rpFile.value));
      k.Do(k.net.(rpFile := None));
    }
  }

  method DropTables(k: Kernel)
    requires NoHalves(k.net.main4)
    modifies k
    ensures k.asked == old(k.asked)
    ensures k.net == old(k.net).(phys4 := map[], phys6 := map[])
    ensures NoHalvesSince(k.seen, old(k.seen))
  {
    k.Do(k.net.(phys4 := map[]));
    k.Do(k.net.(phys6 := map[]));
  }

  method RouteDown(k: Kernel, ghost servers: seq<Address>)
    modifies k
    ensures k.asked == old(k.asked)
    ensures k.net == Down(old(k.net))
    ensures AntiLoop(old(k.net), servers) ==> AntiLoopSince(k.seen, old(k.seen), servers)
  {
    hide WithoutMarks, Unpinned, IntoTun;
    DropTunnel(k, servers);
    ghost var safe := k.seen;
    DropDnsPolicy(k);
    DropV6(k);
    DropMarks(k);
    DropTables(k);
    DropPins(k);
    RestoreFilter(k);
    NoHalvesIsSafe(k.seen, safe, servers);
  }

  lemma NoHalvesIsSafe(seen: seq<Net>, earlier: seq<Net>, servers: seq<Address>)
    requires NoHalvesSince(seen, earlier)
    ensures AntiLoopSince(seen, earlier, servers)
  {
  }

  // ---- The transaction ----

  lemma Down4AfterHalves(n: Net, p: Net, path: Path, servers: seq<Address>)
    requires Clean(n, servers) && path.Physical?
    requires p.serversFile == Some(Family(servers, |servers|, false))
    requires var t := Pinned(n.main4, servers, |servers|, path, false);
             p.main4 == t || p.main4 == t[LowHalf := Tun] || p.main4 == t[LowHalf := Tun][HighHalf := Tun]
    ensures DownMain4(p) == n.main4
  {
    hide WithoutMarks, Pinned, Unpinned, Family;
    var t := Pinned(n.main4, servers, |servers|, path, false);
    PinnedKeepsPhysical(n.main4, servers, |servers|, path, false);
    UnpinUndoesPin(n.main4, servers, path, false);
    assert LowHalf !in t && HighHalf !in t;
    assert t[LowHalf := Tun] - {LowHalf} == t;
    assert t[LowHalf := Tun][HighHalf := Tun] - {LowHalf} - {HighHalf} == t;
    assert WithoutTun(WithoutTun(p.main4, LowHalf), HighHalf) == t;
  }

  lemma Down6AfterHalves(n: Net, p: Net, path6: Option<Path>, servers: seq<Address>)
    requires Clean(n, servers) && (path6.Some? ==> path6.value.Physical?)
    requires p.servers6File == Some(if path6.Some? then Family(servers, |servers|, true) else [])
    requires var t := if path6.Some? then Pinned(n.main6, servers, |servers|, path6.value, true) else n.main6;
             p.main6 == t || p.main6 == t[LowHalf := Blackhole]
               || p.main6 == t[LowHalf := Blackhole][HighHalf := Blackhole]
    ensures DownMain6(p) == n.main6
  {
    hide WithoutMarks, Pinned, Family;
    var t := if path6.Some? then Pinned(n.main6, servers, |servers|, path6.value, true) else n.main6;
    if path6.Some? {
      PinnedKeepsPhysical(n.main6, servers, |servers|, path6.value, true);
      UnpinUndoesPin(n.main6, servers, path6.value, true);
    }
    assert LowHalf !in t && HighHalf !in t;
    assert p.main6 - {LowHalf} - {HighHalf} == t;
  }

  /** A main table without halves and without a state file is left as it is. */
  lemma DownKeepsMain(p: Net)
    ensures p.serversFile.None? && NoHalves(p.main4) ==> DownMain4(p) == p.main4
    ensures p.servers6File.None? && LowHalf !in p.main6 && HighHalf !in p.main6 ==> DownMain6(p) == p.main6
  {
    hide WithoutMarks;
    assert LowHalf !in p.main6 && HighHalf !in p.main6 ==> p.main6 - {LowHalf} - {HighHalf} == p.main6;
  }

  lemma PinnedHasNoHalves(table: Table, servers: seq<Address>, n: nat, path: Path, v6: bool)
    requires n <= |servers| && path.Physical? && LowHalf !in table && HighHalf !in table
    ensures LowHalf !in Pinned(table, servers, n, path, v6) && HighHalf !in Pinned(table, servers, n, path, v6)
  {
    PinnedKeepsPhysical(table, servers, n, path, v6);
  }

  function MaybePinned6(n: Net, path6: Option<Path>, servers: seq<Address>, laid: nat): Table
    requires laid <= |servers|
  {
    if path6.Some? then Pinned(n.main6, servers, laid, path6.value, true) else n.main6
  }

  /** Route-down from `p` gives `n` back, but for the pins a failing pin loop had laid and not recorded. */
  ghost predicate Undoes(n: Net, p: Net, path: Path, path6: Option<Path>, servers: seq<Address>, laid4: nat,
                         laid6: nat) {
    && laid4 <= |servers| && laid6 <= |servers|
    && (Clean(n, servers) ==>
          Down(p) == n.(main4 := Pinned(n.main4, servers, laid4, path, false),
                        main6 := MaybePinned6(n, path6, servers, laid6)))
  }

  /** What the base of the routing owes to route-down, whatever the main tables hold. */
  ghost predicate BasePart(n: Net, p: Net) {
    BaseUndoable(n, p) && p.rules6[MarkRule(DNS_MARK, DnsTable)] == n.rules6[MarkRule(DNS_MARK, DnsTable)]
  }

  lemma CleanIsBaseOnly(n: Net, servers: seq<Address>)
    requires Clean(n, servers)
    ensures BaseOnly(n, n)
  {
  }

  lemma UndoesFrom(n: Net, p: Net, path: Path, path6: Option<Path>, servers: seq<Address>, laid4: nat, laid6: nat)
    requires laid4 <= |servers| && laid6 <= |servers|
    requires Clean(n, servers) ==> BasePart(n, p)
    requires Clean(n, servers) ==> DownMain4(p) == Pinned(n.main4, servers, laid4, path, false)
    requires Clean(n, servers) ==> DownMain6(p) == MaybePinned6(n, path6, servers, laid6)
    ensures Undoes(n, p, path, path6, servers, laid4, laid6)
  {
    hide Down, Pinned;
    if Clean(n, servers) {
      DownUndoes(n, p, servers);
    }
  }

  /** The base, the IPv4 pins and their record. */
  method LayPins(k: Kernel, path: Path, path6: Option<Path>, servers: seq<Address>) returns (ok: bool, ghost laid4: nat)
    requires path.Physical?
    modifies k
    ensures Ran(k.fails, old(k.asked), k.asked, ok, BaseCommands(path6) + PinCommands(servers, false))
    ensures laid4 <= |servers|
    ensures !ok ==> |Family(servers, laid4, false)| == LeftPins4(k.asked - 1 - old(k.asked), path6, servers)
    ensures ok ==> k.net == Pins4(Base(old(k.net), path, path6), path, servers)
    ensures AntiLoop(old(k.net), servers) ==> AntiLoopSince(k.seen, old(k.seen), servers) && AntiLoop(k.net, servers)
    ensures Clean(old(k.net), servers) ==> BasePart(old(k.net), k.net)
    ensures !ok ==> Undoes(old(k.net), k.net, path, path6, servers, laid4, 0)
  {
    hide Pinned, Base, AtMostOurs, Family, HasMark, Down, WithoutMarks, Undoes;
    ghost var n := k.net;
    laid4 := 0;
    if Clean(n, servers) {
      CleanIsBaseOnly(n, servers);
    }
    ok := LayBase(k, path, path6);
    PinnedZero(n, path, path6, servers);
    if !ok {
      DownKeepsMain(k.net);
      UndoesFrom(n, k.net, path, path6, servers, 0, 0);
      return;
    }
    ok, laid4 := PinServers(k, servers, path, false);
    PinningIsSafeFrom(n, k.net, servers, laid4, path);
    if !ok {
      if Clean(n, servers) {
        PinnedHasNoHalves(n.main4, servers, laid4, path, false);
      }
      DownKeepsMain(k.net);
      UndoesFrom(n, k.net, path, path6, servers, laid4, 0);
      return;
    }
    k.Do(k.net.(serversFile := Some(Family(servers, |servers|, false))));
  }

  lemma PinnedZero(n: Net, path: Path, path6: Option<Path>, servers: seq<Address>)
    ensures Pinned(n.main4, servers, 0, path, false) == n.main4
    ensures MaybePinned6(n, path6, servers, 0) == n.main6
    ensures Family(servers, 0, false) == [] && Family(servers, 0, true) == []
  {
  }

  lemma PinningIsSafeFrom(n: Net, p: Net, servers: seq<Address>, laid: nat, path: Path)
    requires laid <= |servers| && path.Physical? && p.main4 == Pinned(n.main4, servers, laid, path, false)
    ensures AntiLoop(n, servers) ==> forall q: Net :: q.main4 == p.main4 ==> AntiLoop(q, servers)
  {
    if AntiLoop(n, servers) {
      PinningIsSafe(n, servers, laid, path);
    }
  }

  /** Drawing IPv4 into the tunnel. */
  method DrawV4(k: Kernel, ghost n: Net, path: Path, path6: Option<Path>, servers: seq<Address>) returns (ok: bool)
    requires path.Physical?
    requires k.net == Pins4(Base(n, path, path6), path, servers)
    requires Clean(n, servers) ==> BasePart(n, k.net)
    modifies k
    ensures Ran(k.fails, old(k.asked), k.asked, ok, HALVES)
    ensures ok ==> k.net == Halves4(old(k.net))
    ensures AntiLoopSince(k.seen, old(k.seen), servers) && AntiLoop(k.net, servers)
    ensures !ok ==> Undoes(n, k.net, path, path6, servers, 0, 0)
    ensures Clean(n, servers) ==> BasePart(n, k.net)
  {
    hide Pinned, Base, AtMostOurs, Family, IntoTun, AntiLoop, Clean, Down, Undoes, WithoutMarks;
    HalvesAreSafe(n, path, servers);
    BaseMain(n, path, path6);
    ok := k.Try(k.net.(main4 := k.net.main4[LowHalf := Tun]));
    if !ok {
      StoppedAtHalves(n, k.net, path, path6, servers);
      return;
    }
    ok := k.Try(k.net.(main4 := k.net.main4[HighHalf := Tun]));
    if !ok {
      StoppedAtHalves(n, k.net, path, path6, servers);
    }
  }

  /** The IPv6 pins and their record. */
  method LayPins6(k: Kernel, ghost n: Net, path: Path, path6: Option<Path>, servers: seq<Address>)
    returns (ok: bool, ghost laid6: nat)
    requires path.Physical? && (path6.Some? ==> path6.value.Physical?)
    requires k.net == Halves4(Pins4(Base(n, path, path6), path, servers)) && AntiLoop(k.net, servers)
    requires Clean(n, servers) ==> BasePart(n, k.net)
    modifies k
    ensures Ran(k.fails, old(k.asked), k.asked, ok, PinCommands6(path6, servers)) && laid6 <= |servers|
    ensures !ok ==> |Family(servers, laid6, true)| == k.asked - 1 - old(k.asked)
    ensures ok ==> k.net == Pins6(old(k.net), path6, servers)
    ensures AntiLoopSince(k.seen, old(k.seen), servers) && AntiLoop(k.net, servers)
    ensures !ok ==> Undoes(n, k.net, path, path6, servers, 0, laid6)
    ensures Clean(n, servers) ==> BasePart(n, k.net)
  {
    hide Pinned, Base, AtMostOurs, Family, IntoTun, Clean, Down, Undoes, WithoutMarks;
    laid6 := 0;
    BaseMain(n, path, path6);
    if path6.Some? {
      ok, laid6 := PinServers(k, servers, path6.value, true);
      if !ok {
        StoppedAtPins6(n, k.net, path, path6, servers, laid6);
        return;
      }
      k.Do(k.net.(servers6File := Some(Family(servers, |servers|, true))));
    } else {
      ok := true;
      k.Do(k.net.(servers6File := Some([])));
    }
  }

  /** The IPv6 blackholes. */
  method CloseV6(k: Kernel, ghost n: Net, path: Path, path6: Option<Path>, servers: seq<Address>) returns (ok: bool)
    requires path.Physical? && (path6.Some? ==> path6.value.Physical?)
    requires k.net == Pins6(Halves4(Pins4(Base(n, path, path6), path, servers)), path6, servers)
    requires AntiLoop(k.net, servers) && (Clean(n, servers) ==> BasePart(n, k.net))
    modifies k
    ensures Ran(k.fails, old(k.asked), k.asked, ok, HALVES)
    ensures ok ==> k.net == Halves6(old(k.net))
    ensures AntiLoopSince(k.seen, old(k.seen), servers) && AntiLoop(k.net, servers)
    ensures Undoes(n, k.net, path, path6, servers, 0, 0)
  {
    hide Pinned, Base, AtMostOurs, Family, AntiLoop, Clean, Down, Undoes, WithoutMarks;
    BaseMain(n, path, path6);
    SameMainIsAsSafe(k.net, servers);
    ok := k.Try(k.net.(main6 := k.net.main6[LowHalf := Blackhole]));
    if !ok {
      StoppedAtHalves6(n, k.net, path, path6, servers);
      return;
    }
    ok := k.Try(k.net.(main6 := k.net.main6[HighHalf := Blackhole]));
    StoppedAtHalves6(n, k.net, path, path6, servers);
  }

  /** Drawing IPv4 into the tunnel, then closing IPv6. */
  method LayHalves(k: Kernel, ghost n: Net, path: Path, path6: Option<Path>, servers: seq<Address>)
    returns (ok: bool, ghost laid6: nat)
    requires path.Physical? && (path6.Some? ==> path6.value.Physical?)
    requires k.net == Pins4(Base(n, path, path6), path, servers)
    requires Clean(n, servers) ==> BasePart(n, k.net)
    modifies k
    ensures Ran(k.fails, old(k.asked), k.asked, ok, HALVES + PinCommands6(path6, servers) + HALVES)
    ensures laid6 <= |servers|
    ensures !ok ==>
              var failed := k.asked - 1 - old(k.asked);
              |Family(servers, laid6, true)| ==
              if HALVES <= failed < HALVES + PinCommands6(path6, servers) then failed - HALVES else 0
    ensures ok ==> k.net == Up(n, path, path6, servers) && laid6 == 0
    ensures AntiLoopSince(k.seen, old(k.seen), servers) && AntiLoop(k.net, servers)
    ensures Undoes(n, k.net, path, path6, servers, 0, laid6)
  {
    hide Pinned, Base, AtMostOurs, Family, AntiLoop, Clean, Down, Undoes, WithoutMarks, BasePart, PinCommands6, Pins4,
         Pins6, Halves4, Halves6;
    PinnedZero(n, path, path6, servers);
    laid6 := 0;
    ok := DrawV4(k, n, path, path6, servers);
    if !ok {
      return;
    }
    ok, laid6 := LayPins6(k, n, path, path6, servers);
    if !ok {
      return;
    }
    laid6 := 0;
    ok := CloseV6(k, n, path, path6, servers);
  }

  lemma SameMainIsAsSafe(n: Net, servers: seq<Address>)
    requires AntiLoop(n, servers)
    ensures forall p: Net :: p.main4 == n.main4 ==> AntiLoop(p, servers)
  {
  }

  lemma BaseMain(n: Net, path: Path, path6: Option<Path>)
    ensures SameMain(n, Base(n, path, path6))
  {
    hide Throws, WithRule;
  }

  lemma StoppedAtHalves(n: Net, p: Net, path: Path, path6: Option<Path>, servers: seq<Address>)
    requires path.Physical? && (Clean(n, servers) ==> BasePart(n, p))
    requires p.serversFile == Some(Family(servers, |servers|, false))
    requires var t := Pinned(n.main4, servers, |servers|, path, false);
             p.main4 == t || p.main4 == t[LowHalf := Tun] || p.main4 == t[LowHalf := Tun][HighHalf := Tun]
    requires p.main6 == n.main6 && p.servers6File == n.servers6File
    ensures Undoes(n, p, path, path6, servers, 0, 0)
  {
    hide Pinned, Down, BasePart;
    if Clean(n, servers) {
      Down4AfterHalves(n, p, path, servers);
      DownKeepsMain(p);
    }
    PinnedZero(n, path, path6, servers);
    UndoesFrom(n, p, path, path6, servers, 0, 0);
  }

  lemma StoppedAtPins6(n: Net, p: Net, path: Path, path6: Option<Path>, servers: seq<Address>, laid6: nat)
    requires path.Physical? && path6.Some? && path6.value.Physical? && laid6 <= |servers|
    requires Clean(n, servers) ==> BasePart(n, p)
    requires p.serversFile == Some(Family(servers, |servers|, false))
    requires p.main4 == Pinned(n.main4, servers, |servers|, path, false)[LowHalf := Tun][HighHalf := Tun]
    requires p.main6 == Pinned(n.main6, servers, laid6, path6.value, true) && p.servers6File == n.servers6File
    ensures Undoes(n, p, path, path6, servers, 0, laid6)
  {
    hide Pinned, Down, BasePart;
    if Clean(n, servers) {
      Down4AfterHalves(n, p, path, servers);
      PinnedHasNoHalves(n.main6, servers, laid6, path6.value, true);
      DownKeepsMain(p);
    }
    PinnedZero(n, path, path6, servers);
    UndoesFrom(n, p, path, path6, servers, 0, laid6);
  }

  lemma StoppedAtHalves6(n: Net, p: Net, path: Path, path6: Option<Path>, servers: seq<Address>)
    requires path.Physical? && (path6.Some? ==> path6.value.Physical?)
    requires Clean(n, servers) ==> BasePart(n, p)
    requires p.serversFile == Some(Family(servers, |servers|, false))
    requires p.main4 == Pinned(n.main4, servers, |servers|, path, false)[LowHalf := Tun][HighHalf := Tun]
    requires p.servers6File == Some(if path6.Some? then Family(servers, |servers|, true) else [])
    requires var t := MaybePinned6(n, path6, servers, |servers|);
             p.main6 == t || p.main6 == t[LowHalf := Blackhole]
               || p.main6 == t[LowHalf := Blackhole][HighHalf := Blackhole]
    ensures Undoes(n, p, path, path6, servers, 0, 0)
  {
    hide Pinned, Down, BasePart;
    if Clean(n, servers) {
      Down4AfterHalves(n, p, path, servers);
      Down6AfterHalves(n, p, path6, servers);
    }
    PinnedZero(n, path, path6, servers);
    UndoesFrom(n, p, path, path6, servers, 0, 0);
  }

  /**
   Lay the routing the tunnel needs, or take back what was laid when a command fails.

   At every step, also of the rollback, no server is routed into its own tunnel. The commands are numbered
   from the first one asked; which one failed decides what is left. A clean host is given back exactly
   unless a command of a pin loop failed after that loop had laid a pin.
   */
  method RouteUp(k: Kernel, physical: Option<Path>, path6: Option<Path>, servers: seq<Address>)
    returns (ok: bool, ghost laid4: nat, ghost laid6: nat)
    requires physical.Some? ==> physical.value.Physical?
    requires path6.Some? ==> path6.value.Physical?
    modifies k
    ensures laid4 <= |servers| && laid6 <= |servers|
    ensures physical.None? ==> !ok && k.net == old(k.net) && k.asked == old(k.asked)
    ensures physical.Some? ==> Ran(k.fails, old(k.asked), k.asked, ok, Commands(path6, servers))
    ensures ok ==> k.net == Up(old(k.net), physical.value, path6, servers)
    ensures ok ==> Undoes(old(k.net), k.net, physical.value, path6, servers, 0, 0)
    ensures AntiLoop(old(k.net), servers) ==> AntiLoopSince(k.seen, old(k.seen), servers)
    ensures !ok && physical.Some? && Clean(old(k.net), servers) ==>
              k.net == old(k.net).(main4 := Pinned(old(k.net).main4, servers, laid4, physical.value, false),
                                   main6 := MaybePinned6(old(k.net), path6, servers, laid6))
    ensures !ok && physical.Some? ==>
              var failed := k.asked - 1 - old(k.asked);
              && |Family(servers, laid4, false)| == LeftPins4(failed, path6, servers)
              && |Family(servers, laid6, true)| == LeftPins6(failed, path6, servers)
    ensures !ok && physical.Some? && Clean(old(k.net), servers) ==>
              var failed := k.asked - 1 - old(k.asked);
              k.net == old(k.net) <==> LeftPins4(failed, path6, servers) == 0 && LeftPins6(failed, path6, servers) == 0
  {
    hide Pinned, Base, AtMostOurs, Family, IntoTun, AntiLoop, Clean, Down, Up, Pins4;
    laid4, laid6 := 0, 0;
    if physical.None? {
      return false, 0, 0;
    }
    ghost var n := k.net;
    PinnedZero(n, physical.value, path6, servers);
    ok, laid4 := LayPins(k, physical.value, path6, servers);
    if ok {
      laid4 := 0;
      ok, laid6 := LayHalves(k, n, physical.value, path6, servers);
    }
    if !ok {
      RouteDown(k, servers);
      if Clean(n, servers) {
        RestoredUnlessPinned(n, physical.value, path6, servers, laid4, laid6);
      }
    }
  }

  /** A clean host with the pins of interrupted loops on it is the host itself exactly when there are none. */
  lemma RestoredUnlessPinned(n: Net, path: Path, path6: Option<Path>, servers: seq<Address>, laid4: nat, laid6: nat)
    requires Clean(n, servers) && laid4 <= |servers| && laid6 <= |servers|
    requires path6.None? ==> Family(servers, laid6, true) == []
    ensures n.(main4 := Pinned(n.main4, servers, laid4, path, false),
               main6 := MaybePinned6(n, path6, servers, laid6)) == n <==>
            Family(servers, laid4, false) == [] && Family(servers, laid6, true) == []
  {
    hide Clean, Pinned, Family;
    LeftoverPins(n, path, servers, laid4, false);
    if path6.Some? {
      LeftoverPins(n, path6.value, servers, laid6, true);
    }
  }

  /** Route-down after a successful route-up gives a clean host back exactly as it was. */
  method UpThenDown(k: Kernel, physical: Path, path6: Option<Path>, servers: seq<Address>) returns (ok: bool)
    requires physical.Physical? && (path6.Some? ==> path6.value.Physical?) && Clean(k.net, servers)
    modifies k
    ensures ok ==> k.net == old(k.net)
    ensures AntiLoopSince(k.seen, old(k.seen), servers)
  {
    hide Pinned, Down, Up, Clean;
    ghost var n := k.net;
    CleanIsSafe(n, servers);
    ghost var laid4, laid6;
    ok, laid4, laid6 := RouteUp(k, Some(physical), path6, servers);
    if ok {
      UpIsSafe(n, physical, path6, servers);
      RouteDown(k, servers);
      PinnedZero(n, physical, path6, servers);
    }
  }

  lemma CleanIsSafe(n: Net, servers: seq<Address>)
    requires Clean(n, servers)
    ensures AntiLoop(n, servers)
  {
  }

  lemma UpIsSafe(n: Net, path: Path, path6: Option<Path>, servers: seq<Address>)
    requires path.Physical?
    ensures AntiLoop(Up(n, path, path6, servers), servers)
  {
    BaseMain(n, path, path6);
    HalvesAreSafe(n, path, servers);
  }

  /** The same on values: route-down is the inverse of route-up on every clean host. */
  lemma DownInvertsUp(n: Net, path: Path, path6: Option<Path>, servers: seq<Address>)
    requires path.Physical? && (path6.Some? ==> path6.value.Physical?) && Clean(n, servers)
    ensures Down(Up(n, path, path6, servers)) == n
  {
    hide Pinned, Base, AtMostOurs, Family, Clean, Down;
    var up := Up(n, path, path6, servers);
    BaseIsUndoable(n, path, path6, servers);
    assert BasePart(n, up);
    BaseMain(n, path, path6);
    StoppedAtHalves6(n, up, path, path6, servers);
    PinnedZero(n, path, path6, servers);
  }

  lemma BaseIsUndoable(n: Net, path: Path, path6: Option<Path>, servers: seq<Address>)
    requires Clean(n, servers)
    ensures BasePart(n, Base(n, path, path6))
  {
    CleanIsBaseOnly(n, servers);
    hide AtMostOurs, Throws, WithRule, Clean;
    var dns, dial := MarkRule(DNS_MARK, DnsTable), MarkRule(XRAY_DIAL_MARK, PhysTable);
    var bypass := MarkRule(BYPASS_MARK, PhysTable);
    RuleChanges(n.rules4, n.rules4, dns);
    RuleChanges(n.rules4, WithRule(n.rules4, dns), dial);
    RuleChanges(n.rules4, WithRule(WithRule(n.rules4, dns), dial), bypass);
    RuleChanges(n.rules6, n.rules6, dial);
    RuleChanges(n.rules6, WithRule(n.rules6, dial), bypass);
    OtherRuleStays(n.rules6, dial, dns);
    OtherRuleStays(WithRule(n.rules6, dial), bypass, dns);
  }

  lemma OtherRuleStays(rules: multiset<MarkRule>, rule: MarkRule, other: MarkRule)
    requires rule != other
    ensures WithRule(rules, rule)[other] == rules[other]
  {
  }

  /** A failing pin loop leaves the main table changed exactly when it had laid a pin. */
  lemma LeftoverPins(n: Net, path: Path, servers: seq<Address>, laid: nat, v6: bool)
    requires laid <= |servers| && Clean(n, servers)
    ensures Pinned(n.main4, servers, laid, path, v6) == n.main4 <==> Family(servers, laid, v6) == []
    ensures Pinned(n.main6, servers, laid, path, v6) == n.main6 <==> Family(servers, laid, v6) == []
  {
    PinnedKeys(n.main4, servers, laid, path, v6);
    PinnedKeys(n.main6, servers, laid, path, v6);
    FamilyMembers(servers, laid, v6);
    var list := Family(servers, laid, v6);
    if list != [] {
      assert list[0] in servers[..laid];
      assert HostRoute(list[0]) in Pinned(n.main4, servers, laid, path, v6);
      assert HostRoute(list[0]) in Pinned(n.main6, servers, laid, path, v6);
    }
  }

  // ---- The rollback that is not exact ----

  const ROUTER: Path := Physical(Some("192.168.0.1"), "eth0")

  const IDLE := Net(map[Everything := ROUTER], map[], map[], map[], map[], map[], multiset{}, multiset{}, 0, None,
                    None, None, false)

  /** Two servers, and the second pin, the sixteenth command, fails: the first pin stays behind. */
  method InterruptedPinLoop() returns (k: Kernel, ok: bool)
    ensures !ok && k.net == IDLE.(main4 := IDLE.main4[HostRoute(V4(1)) := ROUTER])
    ensures k.net != IDLE
  {
    hide Up, Down, Base, Pinned, Family, Undoes, Clean, AntiLoop;
    var servers := [V4(1), V4(2)];
    k := new Kernel((c: nat) => c == 15, IDLE);
    ghost var laid4, laid6;
    FamilyOfTwo();
    assert Commands(None, servers) == 20;
    ok, laid4, laid6 := RouteUp(k, Some(ROUTER), None, servers);
    assert k.fails(15);
    assert laid4 == 1;
    PinnedFirst(servers);
    assert HostRoute(V4(1)) !in IDLE.main4;
  }

  lemma FamilyOfTwo()
    ensures var servers := [V4(1), V4(2)];
            && Family(servers, 0, false) == [] && |Family(servers, 1, false)| == 1 && |Family(servers, 2, false)| == 2
            && Clean(IDLE, servers)
  {
    var servers := [V4(1), V4(2)];
    assert Family(servers, 0, false) == [];
    assert Family(servers, 1, false) == [V4(1)];
    assert Family(servers, 2, false) == [V4(1), V4(2)];
  }

  lemma PinnedFirst(servers: seq<Address>)
    requires |servers| == 2 && servers[0] == V4(1)
    ensures Pinned(IDLE.main4, servers, 1, ROUTER, false) == IDLE.main4[HostRoute(V4(1)) := ROUTER]
  {
    assert Pinned(IDLE.main4, servers, 0, ROUTER, false) == IDLE.main4;
  }
}
