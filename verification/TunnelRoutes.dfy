/** What the laid routing means for a packet: which way the kernel's lookup sends it. */
module TunnelRoutes {
  import opened Basics
  import opened Addresses
  import opened Kernel
  import opened Marks
  import opened PolicyRouting
  import opened AddressRanges
  import NetHelper
  import SplitBackend

  /** The host has a route of its own for the address that beats the two halves. */
  ghost predicate HasLonger(nets: Networks, table: Table, address: Address) {
    exists d :: d in table && Covers(nets, d, address) && Length(nets, d) > 1
  }

  /** No network is as short as a half: the halves are the only /1 routes. */
  ghost predicate Proper(nets: Networks) {
    forall name :: nets.length(name) != 1
  }

  /** A table with pins laid on it and the halves of its family over them. */
  function Drawn(table: Table, servers: seq<Address>, path: Option<Path>, v6: bool, into: Path): Table {
    (if path.Some? then NetHelper.Pinned(table, servers, |servers|, path.value, v6) else table)
      [LowHalf := into][HighHalf := into]
  }

  lemma HalfCovers(nets: Networks, address: Address)
    ensures exists d :: d in {LowHalf, HighHalf} && Covers(nets, d, address)
  {
    if address.bits < Middle(address) {
      assert Covers(nets, LowHalf, address);
    } else {
      assert Covers(nets, HighHalf, address);
    }
  }

  lemma DrawnRoutes(table: Table, servers: seq<Address>, path: Option<Path>, v6: bool, into: Path, d: Destination)
    ensures var drawn := Drawn(table, servers, path, v6, into);
            && (d in {LowHalf, HighHalf} ==> d in drawn && drawn[d] == into)
            && (d in drawn && d !in {LowHalf, HighHalf} ==>
                  || (d in table && drawn[d] == table[d])
                  || (d.HostRoute? && path.Some? && d.address in servers && drawn[d] == path.value))
            && (path.Some? && d.HostRoute? && d.address in servers && d.address.V6? == v6 ==>
                  d in drawn && drawn[d] == path.value)
  {
    if path.Some? {
      NetHelper.PinnedKeys(table, servers, |servers|, path.value, v6);
      NetHelper.FamilyMembers(servers, |servers|, v6);
      assert servers[..|servers|] == servers;
    }
    hide NetHelper.Pinned, NetHelper.Family;
  }

  /** Everything follows the halves, but a pinned server and what the host has a longer route for. */
  lemma HalvesDecide(nets: Networks, table: Table, servers: seq<Address>, path: Option<Path>, v6: bool, into: Path,
                     address: Address, q: Path)
    requires Proper(nets) && LowHalf !in table && HighHalf !in table
    requires !(path.Some? && address in servers) && !HasLonger(nets, table, address)
    ensures Sends(nets, Drawn(table, servers, path, v6, into), address, q) <==> q == into
  {
    hide Drawn, HasLonger;
    var drawn := Drawn(table, servers, path, v6, into);
    HalfCovers(nets, address);
    var half :| half in {LowHalf, HighHalf} && Covers(nets, half, address);
    DrawnRoutes(table, servers, path, v6, into, half);
    forall d | d in drawn && Covers(nets, d, address)
      ensures Length(nets, d) <= 1 && (Length(nets, d) == 1 ==> d in {LowHalf, HighHalf} && drawn[d] == into)
    {
      DrawnRoutes(table, servers, path, v6, into, d);
      ShortRoute(nets, table, address, d);
    }
    assert Best(nets, drawn, address, half);
  }

  lemma ShortRoute(nets: Networks, table: Table, address: Address, d: Destination)
    requires Proper(nets) && !HasLonger(nets, table, address) && Covers(nets, d, address)
    ensures d in table ==> Length(nets, d) <= 1
    ensures Length(nets, d) == 1 ==> d in {LowHalf, HighHalf}
    ensures d.HostRoute? ==> d.address == address
  {
  }

  /** A pinned server goes by its pin, unless the host had a route just as long for it. */
  lemma PinDecides(nets: Networks, table: Table, servers: seq<Address>, path: Path, v6: bool, into: Path,
                   address: Address, q: Path)
    requires address in servers && address.V6? == v6
    requires forall d :: d in table && Covers(nets, d, address) ==> Length(nets, d) < Length(nets, HostRoute(address))
    ensures Sends(nets, Drawn(table, servers, Some(path), v6, into), address, q) <==> q == path
  {
    hide Drawn;
    var drawn, pin := Drawn(table, servers, Some(path), v6, into), HostRoute(address);
    DrawnRoutes(table, servers, Some(path), v6, into, pin);
    forall d | d in drawn && Covers(nets, d, address)
      ensures Length(nets, d) <= Length(nets, pin) && (Length(nets, d) == Length(nets, pin) ==> d == pin)
    {
      DrawnRoutes(table, servers, Some(path), v6, into, d);
    }
    assert Best(nets, drawn, address, pin);
  }

  // ---- After a successful route-up ----

  /** The main tables, the filter and the state files of a host whose routing is up. */
  lemma UpMainTables(n: Net, path: Path, path6: Option<Path>, servers: seq<Address>)
    ensures var up := NetHelper.Up(n, path, path6, servers);
            && up.main4 == Drawn(n.main4, servers, Some(path), false, Tun)
            && up.main6 == Drawn(n.main6, servers, path6, true, Blackhole)
            && up.rpFilter == 2 && up.rpFile == Some(n.rpFilter)
            && up.serversFile == Some(NetHelper.Family(servers, |servers|, false))
            && up.servers6File == Some(if path6.Some? then NetHelper.Family(servers, |servers|, true) else [])
  {
    hide NetHelper.Pinned, NetHelper.Family, NetHelper.Throws, NetHelper.WithRule;
  }

  /** IPv4 without a mark enters the tunnel, whatever the address, but a server and what the host has a longer route
      for; and a server goes by the physical path. */
  lemma Ipv4EntersTheTunnel(nets: Networks, n: Net, path: Path, path6: Option<Path>, servers: seq<Address>,
                            address: Address, q: Path)
    requires Proper(nets) && NetHelper.Clean(n, servers) && address.V4?
    ensures var up := NetHelper.Up(n, path, path6, servers);
            && (address !in servers && !HasLonger(nets, n.main4, address) ==>
                  (Sends(nets, up.main4, address, q) <==> q == Tun))
            && (address in servers
                && (forall d :: d in n.main4 && Covers(nets, d, address) ==> Length(nets, d) < 32) ==>
                  (Sends(nets, up.main4, address, q) <==> q == path))
  {
    UpMainTables(n, path, path6, servers);
    hide NetHelper.Up, Drawn, Sends, HasLonger;
    if address !in servers && !HasLonger(nets, n.main4, address) {
      HalvesDecide(nets, n.main4, servers, Some(path), false, Tun, address, q);
    }
    if address in servers && forall d :: d in n.main4 && Covers(nets, d, address) ==> Length(nets, d) < 32 {
      PinDecides(nets, n.main4, servers, path, false, Tun, address, q);
    }
  }

  /** IPv6 is closed: every address is blackholed but a server, when the host has IPv6, and what the host has a longer
      route for; and such a server goes by the physical path. */
  lemma Ipv6IsClosed(nets: Networks, n: Net, path: Path, path6: Option<Path>, servers: seq<Address>,
                     address: Address, q: Path)
    requires Proper(nets) && NetHelper.Clean(n, servers) && address.V6?
    ensures var up := NetHelper.Up(n, path, path6, servers);
            && (!(path6.Some? && address in servers) && !HasLonger(nets, n.main6, address) ==>
                  (Sends(nets, up.main6, address, q) <==> q == Blackhole))
            && (path6.Some? && address in servers
                && (forall d :: d in n.main6 && Covers(nets, d, address) ==> Length(nets, d) < 128) ==>
                  (Sends(nets, up.main6, address, q) <==> q == path6.value))
  {
    UpMainTables(n, path, path6, servers);
    hide NetHelper.Up, Drawn, Sends, HasLonger;
    if !(path6.Some? && address in servers) && !HasLonger(nets, n.main6, address) {
      HalvesDecide(nets, n.main6, servers, path6, true, Blackhole, address, q);
    }
    if path6.Some? && address in servers
       && forall d :: d in n.main6 && Covers(nets, d, address) ==> Length(nets, d) < 128 {
      PinDecides(nets, n.main6, servers, path6.value, true, Blackhole, address, q);
    }
  }

  /** So IPv6 leaves by a physical path only to a pinned server or along a longer route of the host. */
  lemma Ipv6LeavesOnlyByRoute(nets: Networks, n: Net, path: Path, path6: Option<Path>, servers: seq<Address>,
                              address: Address, q: Path)
    requires Proper(nets) && NetHelper.Clean(n, servers) && address.V6? && q.Physical?
    requires Sends(nets, NetHelper.Up(n, path, path6, servers).main6, address, q)
    ensures (path6.Some? && address in servers) || HasLonger(nets, n.main6, address)
  {
    Ipv6IsClosed(nets, n, path, path6, servers, address, q);
  }

  // ---- The tables of the marks ----

  /** A local network of the list covers the address. */
  ghost predicate IsLocal(nets: Networks, names: seq<string>, address: Address) {
    exists i :: 0 <= i < |names| && nets.covers(names[i], address)
  }

  /** The names of networks mean what they say. */
  ghost predicate Literal(nets: Networks) {
    forall a: Address ::
      && (nets.covers("10.0.0.0/8", a) <==> InRange4(a, 0x0A00_0000, 0x100_0000))
      && (nets.covers("172.16.0.0/12", a) <==> InRange4(a, 0xAC10_0000, 0x10_0000))
      && (nets.covers("192.168.0.0/16", a) <==> InRange4(a, 0xC0A8_0000, 0x1_0000))
      && (nets.covers("169.254.0.0/16", a) <==> InRange4(a, 0xA9FE_0000, 0x1_0000))
      && (nets.covers("100.64.0.0/10", a) <==> InRange4(a, 0x6440_0000, 0x40_0000))
      && (nets.covers("224.0.0.0/4", a) <==> InRange4(a, 0xE000_0000, 0x1000_0000))
      && (nets.covers("255.255.255.255/32", a) <==> a == V4(0xFFFF_FFFF))
      && (nets.covers("fe80::/10", a) <==> InRange6(a, 0xFE80, 0xFEC0))
      && (nets.covers("fc00::/7", a) <==> InRange6(a, 0xFC00, 0xFE00))
      && (nets.covers("ff00::/8", a) <==> InRange6(a, 0xFF00, 0x1_0000))
  }

  /** Local is the LAN, multicast and the broadcast address, and of IPv6 the LAN and multicast. */
  lemma LocalMeans(nets: Networks, address: Address)
    requires Literal(nets)
    ensures IsLocal(nets, NetHelper.LOCAL_THROWS, address) <==>
            IsLan4(address) || InRange4(address, 0xE000_0000, 0x1000_0000) || address == V4(0xFFFF_FFFF)
    ensures IsLocal(nets, NetHelper.LOCAL_THROWS6, address) <==>
            IsLan6(address) || InRange6(address, 0xFF00, 0x1_0000)
  {
    hide InRange4, InRange6;
    var names, names6 := NetHelper.LOCAL_THROWS, NetHelper.LOCAL_THROWS6;
    assert IsLocal(nets, names, address) <==>
           || nets.covers(names[0], address) || nets.covers(names[1], address) || nets.covers(names[2], address)
           || nets.covers(names[3], address) || nets.covers(names[4], address) || nets.covers(names[5], address)
           || nets.covers(names[6], address);
    assert IsLocal(nets, names6, address) <==>
           nets.covers(names6[0], address) || nets.covers(names6[1], address) || nets.covers(names6[2], address);
  }

  lemma {:induction false} ThrowsRoutes(table: Table, names: seq<string>, n: nat, d: Destination)
    requires n <= |names|
    ensures var t := NetHelper.Throws(table, names, n);
            && (d in t <==> d in table || (d.Network? && d.name in names[..n]))
            && (d in t ==> t[d] == if d.Network? && d.name in names[..n] then Throw else table[d])
  {
    if n > 0 {
      ThrowsRoutes(table, names, n - 1, d);
      assert names[..n] == names[..n - 1] + [names[n - 1]];
    }
  }

  /** The longest of the networks that cover an address. */
  lemma {:induction false} LongestName(nets: Networks, names: seq<string>, address: Address) returns (best: string)
    requires IsLocal(nets, names, address)
    ensures best in names && nets.covers(best, address)
    ensures forall name :: name in names && nets.covers(name, address) ==> nets.length(name) <= nets.length(best)
  {
    var front, last := names[..|names| - 1], names[|names| - 1];
    assert names == front + [last];
    if IsLocal(nets, front, address) {
      best := LongestName(nets, front, address);
      if nets.covers(last, address) && nets.length(last) > nets.length(best) {
        best := last;
      }
    } else {
      best := last;
      assert forall name :: name in front ==> !nets.covers(name, address);
    }
  }

  /** The default route with the local networks thrown back: everything but those goes by the default. */
  lemma BypassDecides(nets: Networks, path: Path, names: seq<string>, address: Address, q: Path)
    requires path != Throw && forall name :: nets.length(name) > 0
    ensures var t := NetHelper.Throws(map[Everything := path], names, |names|);
            && (!IsLocal(nets, names, address) ==> (Sends(nets, t, address, q) <==> q == path))
            && (!IsLocal(nets, names, address) ==> !Silent(nets, t, address))
            && (IsLocal(nets, names, address) ==> (Sends(nets, t, address, q) <==> q == Throw))
  {
    var t := NetHelper.Throws(map[Everything := path], names, |names|);
    assert names[..|names|] == names;
    ThrowsRoutes(map[Everything := path], names, |names|, Everything);
    forall d | d in t
      ensures d == Everything || (d.Network? && d.name in names && t[d] == Throw)
    {
      ThrowsRoutes(map[Everything := path], names, |names|, d);
    }
    if IsLocal(nets, names, address) {
      var best := LongestName(nets, names, address);
      ThrowsRoutes(map[Everything := path], names, |names|, Network(best));
      assert Best(nets, t, address, Network(best));
    } else {
      assert Best(nets, t, address, Everything);
    }
  }

  /** Every table a rule of the mark points at is such a bypass table. */
  predicate Bypassed(n: Net, mark: nat, path: Path, names: seq<string>) {
    forall id :: MarkRule(mark, id) in n.rules4 ==> TableOf(n, id) == BypassTable(path, names)
  }

  /** Then a packet of the mark goes by the path, in whatever order the rules are, and one to a local network as the
      main table says. */
  lemma {:induction false} BypassedGoesBy(nets: Networks, n: Net, mark: nat, path: Path, names: seq<string>,
                                          address: Address, order: seq<TableId>, q: Path)
    requires path != Throw && (forall name :: nets.length(name) > 0) && Bypassed(n, mark, path, names)
    ensures !IsLocal(nets, names, address) && (exists id :: id in order && MarkRule(mark, id) in n.rules4) ==>
              (GoesBy(nets, n, mark, address, order, q) <==> q == path)
    ensures IsLocal(nets, names, address) ==>
              (GoesBy(nets, n, mark, address, order, q) <==> Sends(nets, n.main4, address, q))
  {
    hide Sends, Silent, NetHelper.Throws, IsLocal;
    if order != [] {
      BypassedGoesBy(nets, n, mark, path, names, address, order[1..], q);
      BypassDecides(nets, path, names, address, q);
      BypassDecides(nets, path, names, address, Throw);
      assert order == [order[0]] + order[1..];
      SilentWhenThrown(nets, BypassTable(path, names), address);
    }
  }

  lemma SilentWhenThrown(nets: Networks, table: Table, address: Address)
    ensures Sends(nets, table, address, Throw) ==> Silent(nets, table, address)
  {
  }

  function BypassTable(path: Path, names: seq<string>): Table {
    NetHelper.Throws(map[Everything := path], names, |names|)
  }

  lemma InWithRule(rules: multiset<MarkRule>, rule: MarkRule, other: MarkRule)
    ensures other in NetHelper.WithRule(rules, rule) <==> other == rule || other in rules
  {
  }

  /** The rules and the bypass tables of a host whose routing is up. */
  lemma UpPolicy(n: Net, path: Path, path6: Option<Path>, servers: seq<Address>)
    requires n.phys4 == map[] && n.phys6 == map[]
    ensures var up := NetHelper.Up(n, path, path6, servers);
            var dial, bypass := MarkRule(XRAY_DIAL_MARK, PhysTable), MarkRule(BYPASS_MARK, PhysTable);
            var ours := NetHelper.WithRule(n.rules4, MarkRule(DNS_MARK, DnsTable));
            && up.rules4 == NetHelper.WithRule(NetHelper.WithRule(ours, dial), bypass)
            && up.phys4 == BypassTable(path, NetHelper.LOCAL_THROWS)
            && (path6.Some? ==> up.rules6 == NetHelper.WithRule(NetHelper.WithRule(n.rules6, dial), bypass)
                                && up.phys6 == BypassTable(path6.value, NetHelper.LOCAL_THROWS6))
            && (path6.None? ==> up.rules6 == n.rules6 && up.phys6 == map[])
  {
    hide NetHelper.Pinned, NetHelper.Family, NetHelper.Throws, NetHelper.WithRule;
    assert n.phys4[Everything := path] == map[Everything := path];
    if path6.Some? {
      assert n.phys6[Everything := path6.value] == map[Everything := path6.value];
    }
  }

  lemma UpMarkTables(n: Net, path: Path, path6: Option<Path>, servers: seq<Address>)
    requires NetHelper.Clean(n, servers)
    ensures var up, throws := NetHelper.Up(n, path, path6, servers), NetHelper.LOCAL_THROWS;
            && up.phys4 == NetHelper.Throws(map[Everything := path], throws, |throws|)
            && (forall id :: MarkRule(XRAY_DIAL_MARK, id) in up.rules4 <==> id == PhysTable)
            && (forall id :: MarkRule(BYPASS_MARK, id) in up.rules4 <==> id == PhysTable)
  {
    UpPolicy(n, path, path6, servers);
    var dial, bypass := MarkRule(XRAY_DIAL_MARK, PhysTable), MarkRule(BYPASS_MARK, PhysTable);
    var ours := NetHelper.WithRule(n.rules4, MarkRule(DNS_MARK, DnsTable));
    hide NetHelper.Up, NetHelper.WithRule, NetHelper.Throws;
    forall rule: MarkRule | rule.mark in {XRAY_DIAL_MARK, BYPASS_MARK}
      ensures rule in NetHelper.WithRule(NetHelper.WithRule(ours, dial), bypass) <==> rule.table == PhysTable
    {
      InWithRule(n.rules4, MarkRule(DNS_MARK, DnsTable), rule);
      InWithRule(ours, dial, rule);
      InWithRule(NetHelper.WithRule(ours, dial), bypass, rule);
      NotMarked(n.rules4, rule);
    }
  }

  lemma NotMarked(rules: multiset<MarkRule>, rule: MarkRule)
    requires !NetHelper.HasMark(rules, rule.mark)
    ensures rule !in rules
  {
    match rule.table
    case PhysTable => assert rule == MarkRule(rule.mark, PhysTable);
    case DnsTable => assert rule == MarkRule(rule.mark, DnsTable);
    case SplitTable => assert rule == MarkRule(rule.mark, SplitTable);
  }

  /** Xray's own dials leave by the physical path and never enter the tunnel, but those to a local network, which go as
      the main table says. */
  lemma DialsLeaveByThePhysicalPath(nets: Networks, n: Net, path: Path, path6: Option<Path>, servers: seq<Address>,
                                    address: Address, order: seq<TableId>, q: Path)
    requires path.Physical? && (forall name :: nets.length(name) > 0) && NetHelper.Clean(n, servers)
             && PhysTable in order
    ensures var up := NetHelper.Up(n, path, path6, servers);
            GoesBy(nets, up, XRAY_DIAL_MARK, address, order, q) <==>
            if IsLocal(nets, NetHelper.LOCAL_THROWS, address) then Sends(nets, up.main4, address, q) else q == path
  {
    UpMarkTables(n, path, path6, servers);
    hide NetHelper.Up, GoesBy, Sends, IsLocal, NetHelper.Throws, NetHelper.LOCAL_THROWS;
    BypassedGoesBy(nets, NetHelper.Up(n, path, path6, servers), XRAY_DIAL_MARK, path, NetHelper.LOCAL_THROWS,
                   address, order, q);
  }

  /** Applications kept out of the tunnel do the same once a split is live over the helper's routing. */
  lemma ExcludedLeaveByThePhysicalPath(nets: Networks, n: Net, path: Path, path6: Option<Path>, servers: seq<Address>,
                                       p: Net, address: Address, order: seq<TableId>, q: Path)
    requires path.Physical? && (forall name :: nets.length(name) > 0) && NetHelper.Clean(n, servers)
    requires SplitBackend.SplitOnly(NetHelper.Up(n, path, path6, servers), p) && SplitBackend.SplitRouted(p, path)
    requires SplitTable in order || PhysTable in order
    ensures GoesBy(nets, p, BYPASS_MARK, address, order, q) <==>
            if IsLocal(nets, NetHelper.LOCAL_THROWS, address) then Sends(nets, p.main4, address, q) else q == path
  {
    UpMarkTables(n, path, path6, servers);
    hide NetHelper.Up, GoesBy, Sends, IsLocal, NetHelper.Throws, NetHelper.LOCAL_THROWS, NetHelper.Clean;
    SplitRules(NetHelper.Up(n, path, path6, servers), p, path);
    BypassedGoesBy(nets, p, BYPASS_MARK, path, NetHelper.LOCAL_THROWS, address, order, q);
  }

  lemma SplitRules(up: Net, p: Net, path: Path)
    requires SplitBackend.SplitOnly(up, p) && SplitBackend.SplitRouted(p, path)
    requires up.phys4 == BypassTable(path, NetHelper.LOCAL_THROWS)
    requires forall id :: MarkRule(BYPASS_MARK, id) in up.rules4 <==> id == PhysTable
    ensures Bypassed(p, BYPASS_MARK, path, NetHelper.LOCAL_THROWS)
    ensures MarkRule(BYPASS_MARK, PhysTable) in p.rules4 && MarkRule(BYPASS_MARK, SplitTable) in p.rules4
  {
    hide NetHelper.Throws, NetHelper.LOCAL_THROWS;
    forall id | id != SplitTable
      ensures MarkRule(BYPASS_MARK, id) in p.rules4 <==> id == PhysTable
    {
      assert p.rules4[MarkRule(BYPASS_MARK, id)] == up.rules4[MarkRule(BYPASS_MARK, id)];
    }
  }

  // ---- IPv6 under a mark ----

  /** The IPv6 side of a host, as the lookup sees it: the bypass table is the only one with routes for a mark. */
  function Six(n: Net): Net {
    n.(main4 := n.main6, phys4 := n.phys6, dns4 := map[], split4 := map[], rules4 := n.rules6)
  }

  lemma SixRules(n: Net, path: Path, path6: Option<Path>, servers: seq<Address>, mark: nat, id: TableId)
    requires NetHelper.Clean(n, servers) && mark in {XRAY_DIAL_MARK, BYPASS_MARK}
    ensures var up := NetHelper.Up(n, path, path6, servers);
            MarkRule(mark, id) in up.rules6 <==> path6.Some? && id == PhysTable
  {
    UpPolicy(n, path, path6, servers);
    var dial, bypass, rule := MarkRule(XRAY_DIAL_MARK, PhysTable), MarkRule(BYPASS_MARK, PhysTable), MarkRule(mark, id);
    InWithRule(n.rules6, dial, rule);
    InWithRule(NetHelper.WithRule(n.rules6, dial), bypass, rule);
    NotMarked(n.rules6, rule);
    hide NetHelper.Up, NetHelper.WithRule;
  }

  /** IPv6 of Xray's dials and of excluded applications leaves by the physical path too, past the blackholes; on a host
      without IPv6 it goes as the main table says. */
  lemma MarkedIpv6Leaves(nets: Networks, n: Net, path: Path, path6: Option<Path>, servers: seq<Address>, mark: nat,
                         address: Address, order: seq<TableId>, q: Path)
    requires mark in {XRAY_DIAL_MARK, BYPASS_MARK} && (forall name :: nets.length(name) > 0)
    requires NetHelper.Clean(n, servers) && PhysTable in order && (path6.Some? ==> path6.value.Physical?)
    ensures var up := NetHelper.Up(n, path, path6, servers);
            GoesBy(nets, Six(up), mark, address, order, q) <==>
            if path6.None? || IsLocal(nets, NetHelper.LOCAL_THROWS6, address) then Sends(nets, up.main6, address, q)
            else q == path6.value
  {
    var up := NetHelper.Up(n, path, path6, servers);
    UpPolicy(n, path, path6, servers);
    hide NetHelper.Up, GoesBy, Sends, IsLocal, NetHelper.Throws, NetHelper.LOCAL_THROWS6, NetHelper.WithRule;
    forall id ensures MarkRule(mark, id) in Six(up).rules4 <==> path6.Some? && id == PhysTable {
      SixRules(n, path, path6, servers, mark, id);
    }
    if path6.Some? {
      BypassedGoesBy(nets, Six(up), mark, path6.value, NetHelper.LOCAL_THROWS6, address, order, q);
    } else {
      UnruledGoesByMain(nets, Six(up), mark, address, order, q);
    }
  }

  lemma {:induction false} UnruledGoesByMain(nets: Networks, n: Net, mark: nat, address: Address, order: seq<TableId>,
                                             q: Path)
    requires forall id :: MarkRule(mark, id) !in n.rules4
    ensures GoesBy(nets, n, mark, address, order, q) <==> Sends(nets, n.main4, address, q)
  {
    hide Sends, Silent;
    if order != [] {
      UnruledGoesByMain(nets, n, mark, address, order[1..], q);
    }
  }
}
