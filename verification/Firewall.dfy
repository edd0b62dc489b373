/**
 The packet filter: the DNS marking and guard chains of the daemon and the kill switch of the helper,
 as lists of rules read in order, and what they let out together with the helper's policy routing.
 */
module Firewall {
  import opened Basics
  import opened Addresses
  import opened Marks
  import Kernel
  import NetHelper
  import PolicyRouting

  const TUN_IFACE := "varmlen0"
  const LOOPBACK := "lo"

  datatype Protocol = Udp | Tcp | OtherProtocol

  /** A locally generated packet. `local` is an address of the host itself; `reply` is the reply
      direction of an established or related flow. */
  datatype Packet = Packet(
    destination: Address,
    local: bool,
    protocol: Protocol,
    port: nat,
    mark: nat,
    ctMark: nat,
    device: string,
    reply: bool)

  datatype Match =
    | Device(name: string)
    | To(prefixes: seq<Prefix>)
    | ToLocal
    | Port(protocol: Protocol, port: nat)
    | Marked(low: nat)
    | NotMarked(low: nat)
    | CtMarked(low: nat)
    | IsReply

  datatype Verdict = Accept | Drop | Reject | Return | SetMark(mark: nat) | Log

  datatype Rule = Rule(matches: seq<Match>, verdict: Verdict)

  /** `meta mark & 0x0000ffff`. */
  function Low(mark: nat): nat {
    mark % 0x1_0000
  }

  predicate Holds(m: Match, p: Packet) {
    match m
    case Device(name) => p.device == name
    case To(prefixes) => InAny(prefixes, p.destination)
    case ToLocal => p.local
    case Port(protocol, port) => p.protocol == protocol && p.port == port
    case Marked(low) => Low(p.mark) == low
    case NotMarked(low) => Low(p.mark) != low
    case CtMarked(low) => Low(p.ctMark) == low
    case IsReply => p.reply
  }

  predicate AllHold(matches: seq<Match>, p: Packet) {
    matches == [] || (Holds(matches[0], p) && AllHold(matches[1..], p))
  }

  /** The first verdict of a filter chain, if any rule gives one. */
  function FirstVerdict(rules: seq<Rule>, p: Packet): Option<Verdict> {
    if rules == [] then None
    else if AllHold(rules[0].matches, p) && rules[0].verdict in {Accept, Drop, Reject} then Some(rules[0].verdict)
    else FirstVerdict(rules[1..], p)
  }

  /** A route chain run to its end: every matching rule may set the mark, and `return` leaves it. */
  function Remarked(rules: seq<Rule>, p: Packet): Packet {
    if rules == [] then p
    else if !AllHold(rules[0].matches, p) then Remarked(rules[1..], p)
    else if rules[0].verdict == Return then p
    else if rules[0].verdict.SetMark? then
      Remarked(rules[1..], p.(mark := rules[0].verdict.mark, ctMark := rules[0].verdict.mark))
    else Remarked(rules[1..], p)
  }

  // ---- The rulesets ----

  const MARK_OUTPUT: seq<Rule> := [
    Rule([To([Net4(127, 0, 8)])], Return),
    Rule([To([Host(V6(1))])], Return),
    Rule([NotMarked(XRAY_DIAL_MARK), NotMarked(BYPASS_MARK), Port(Udp, 53)], SetMark(DNS_MARK)),
    Rule([NotMarked(XRAY_DIAL_MARK), NotMarked(BYPASS_MARK), Port(Tcp, 53)], SetMark(DNS_MARK))]

  const GUARD_OUTPUT: seq<Rule> := [
    Rule([Device(LOOPBACK)], Accept),
    Rule([Marked(BYPASS_MARK), Port(Udp, 53)], Accept),
    Rule([Marked(BYPASS_MARK), Port(Tcp, 53)], Accept),
    Rule([Marked(BYPASS_MARK), Port(Tcp, 853)], Accept),
    Rule([Marked(DNS_MARK), Device(TUN_IFACE), Port(Udp, 53)], Accept),
    Rule([Marked(DNS_MARK), Device(TUN_IFACE), Port(Tcp, 53)], Accept),
    Rule([Device(TUN_IFACE), Port(Tcp, 853)], Accept),
    Rule([Port(Udp, 53)], Reject),
    Rule([Port(Tcp, 53)], Reject),
    Rule([Port(Tcp, 853)], Reject)]

  const LAN4: seq<Prefix> := [
    Net4(10, 0, 8), Net4(172, 16, 12), Net4(192, 168, 16), Net4(169, 254, 16), Net4(100, 64, 10)]

  const LAN6: seq<Prefix> := [Net6(0xfe80, 10), Net6(0xfc00, 7)]

  const RESOLVER: Prefix := Host(Ip4(1, 1, 1, 1))

  // ---- Reading chains piecewise ----

  lemma {:induction false} VerdictConcat(a: seq<Rule>, b: seq<Rule>, p: Packet)
    ensures FirstVerdict(a + b, p) == OrElse(FirstVerdict(a, p), FirstVerdict(b, p))
  {
    if a == [] {
      assert a + b == b;
    } else {
      assert (a + b)[1..] == a[1..] + b;
      VerdictConcat(a[1..], b, p);
    }
  }

  lemma VerdictFirst(rule: Rule, rest: seq<Rule>, p: Packet)
    ensures FirstVerdict([rule] + rest, p)
            == if AllHold(rule.matches, p) && rule.verdict in {Accept, Drop, Reject} then Some(rule.verdict)
               else FirstVerdict(rest, p)
  {
    assert ([rule] + rest)[1..] == rest;
  }

  lemma Hold1(a: Match, p: Packet)
    ensures AllHold([a], p) <==> Holds(a, p)
  {
    assert [a][1..] == [];
  }

  lemma Hold2(a: Match, b: Match, p: Packet)
    ensures AllHold([a, b], p) <==> Holds(a, p) && Holds(b, p)
  {
    assert [a, b][1..] == [b];
    Hold1(b, p);
  }

  lemma Hold3(a: Match, b: Match, c: Match, p: Packet)
    ensures AllHold([a, b, c], p) <==> Holds(a, p) && Holds(b, p) && Holds(c, p)
  {
    assert [a, b, c][1..] == [b, c];
    Hold2(b, c, p);
  }

  predicate IsDns(p: Packet) {
    (p.protocol == Udp || p.protocol == Tcp) && p.port == 53
  }

  predicate IsDnsOverTls(p: Packet) {
    p.protocol == Tcp && p.port == 853
  }

  /** The marking chain: DNS to another host carries the DNS mark unless Xray or the split sent it. */
  lemma MarkingChain(p: Packet)
    requires !Contains(Net4(127, 0, 8), p.destination) && p.destination != V6(1)
    ensures Remarked(MARK_OUTPUT, p) ==
            if IsDns(p) && Low(p.mark) != XRAY_DIAL_MARK && Low(p.mark) != BYPASS_MARK
            then p.(mark := DNS_MARK, ctMark := DNS_MARK) else p
  {
    var q := p.(mark := DNS_MARK, ctMark := DNS_MARK);
    HostIsExact(V6(1), p.destination);
    OnePrefix(Net4(127, 0, 8), p.destination);
    OnePrefix(Host(V6(1)), p.destination);
    Hold1(To([Net4(127, 0, 8)]), p);
    Hold1(To([Host(V6(1))]), p);
    Hold3(NotMarked(XRAY_DIAL_MARK), NotMarked(BYPASS_MARK), Port(Udp, 53), p);
    Hold3(NotMarked(XRAY_DIAL_MARK), NotMarked(BYPASS_MARK), Port(Tcp, 53), p);
    Hold3(NotMarked(XRAY_DIAL_MARK), NotMarked(BYPASS_MARK), Port(Tcp, 53), q);
    hide AllHold, Contains, InAny;
    var tcp, udp := [MARK_OUTPUT[3]], [MARK_OUTPUT[2]];
    RemarkFirst(MARK_OUTPUT[3], [], p);
    RemarkFirst(MARK_OUTPUT[3], [], q);
    assert tcp + [] == tcp;
    RemarkFirst(MARK_OUTPUT[2], tcp, p);
    RemarkFirst(MARK_OUTPUT[1], udp + tcp, p);
    RemarkFirst(MARK_OUTPUT[0], [MARK_OUTPUT[1]] + (udp + tcp), p);
    assert MARK_OUTPUT == [MARK_OUTPUT[0]] + ([MARK_OUTPUT[1]] + (udp + tcp));
  }

  lemma RemarkFirst(rule: Rule, rest: seq<Rule>, p: Packet)
    ensures Remarked([rule] + rest, p)
            == if !AllHold(rule.matches, p) then Remarked(rest, p)
               else if rule.verdict == Return then p
               else if rule.verdict.SetMark? then
                 Remarked(rest, p.(mark := rule.verdict.mark, ctMark := rule.verdict.mark))
               else Remarked(rest, p)
  {
    assert ([rule] + rest)[1..] == rest;
  }

  lemma OnePrefix(prefix: Prefix, address: Address)
    ensures InAny([prefix], address) <==> Contains(prefix, address)
  {
    if Contains(prefix, address) {
      assert Contains([prefix][0], address);
    }
  }

  /** The guard chain, exactly: what it lets pass of DNS and DNS over TLS. */
  lemma GuardChain(p: Packet)
    ensures FirstVerdict(GUARD_OUTPUT, p) ==
            if p.device == LOOPBACK then Some(Accept)
            else if IsDns(p) then
              Some(if Low(p.mark) == BYPASS_MARK
                   || (Low(p.mark) == DNS_MARK && p.device == TUN_IFACE) then Accept else Reject)
            else if IsDnsOverTls(p) then
              Some(if Low(p.mark) == BYPASS_MARK || p.device == TUN_IFACE then Accept else Reject)
            else None
  {
    var accepts := GUARD_OUTPUT[..7];
    var rejects := GUARD_OUTPUT[7..];
    assert GUARD_OUTPUT == accepts + rejects;
    VerdictConcat(accepts, rejects, p);
    GuardAccepts(p);
    GuardRejects(p);
  }

  lemma GuardRejects(p: Packet)
    ensures FirstVerdict(GUARD_OUTPUT[7..], p) == if IsDns(p) || IsDnsOverTls(p) then Some(Reject) else None
  {
    var a, b, c := Rule([Port(Udp, 53)], Reject), Rule([Port(Tcp, 53)], Reject), Rule([Port(Tcp, 853)], Reject);
    Hold1(Port(Udp, 53), p);
    Hold1(Port(Tcp, 53), p);
    Hold1(Port(Tcp, 853), p);
    VerdictFirst(c, [], p);
    VerdictFirst(b, [c] + [], p);
    VerdictFirst(a, [b] + ([c] + []), p);
    assert GUARD_OUTPUT[7..] == [a] + ([b] + ([c] + []));
  }

  function GuardTunnelRules(): seq<Rule> {
    [GUARD_OUTPUT[4]] + ([GUARD_OUTPUT[5]] + ([GUARD_OUTPUT[6]] + []))
  }

  lemma GuardTunnel(p: Packet)
    ensures FirstVerdict(GuardTunnelRules(), p) ==
            if p.device == TUN_IFACE && ((IsDns(p) && Low(p.mark) == DNS_MARK) || IsDnsOverTls(p)) then Some(Accept)
               else None
  {
    Hold3(Marked(DNS_MARK), Device(TUN_IFACE), Port(Udp, 53), p);
    Hold3(Marked(DNS_MARK), Device(TUN_IFACE), Port(Tcp, 53), p);
    Hold2(Device(TUN_IFACE), Port(Tcp, 853), p);
    hide AllHold, Low;
    var g := GUARD_OUTPUT;
    var t6 := [g[6]] + [];
    VerdictFirst(g[6], [], p);
    VerdictFirst(g[5], t6, p);
    VerdictFirst(g[4], [g[5]] + t6, p);
  }

  lemma GuardAccepts(p: Packet)
    ensures FirstVerdict(GUARD_OUTPUT[..7], p) ==
            if p.device == LOOPBACK
               || (IsDns(p) && (Low(p.mark) == BYPASS_MARK || (Low(p.mark) == DNS_MARK && p.device == TUN_IFACE)))
               || (IsDnsOverTls(p) && (Low(p.mark) == BYPASS_MARK || p.device == TUN_IFACE))
            then Some(Accept) else None
  {
    Hold1(Device(LOOPBACK), p);
    Hold2(Marked(BYPASS_MARK), Port(Udp, 53), p);
    Hold2(Marked(BYPASS_MARK), Port(Tcp, 53), p);
    Hold2(Marked(BYPASS_MARK), Port(Tcp, 853), p);
    GuardTunnel(p);
    var g := GUARD_OUTPUT;
    var t4 := GuardTunnelRules();
    var t3 := [g[3]] + t4;
    var t2 := [g[2]] + t3;
    var t1 := [g[1]] + t2;
    assert g[..7] == [g[0]] + t1;
    hide AllHold, FirstVerdict, Low, GuardTunnelRules;
    VerdictFirst(g[3], t4, p);
    VerdictFirst(g[2], t3, p);
    VerdictFirst(g[1], t2, p);
    VerdictFirst(g[0], t1, p);
  }

  // ---- The kill switch ----

  const KS_PATHS: seq<Rule> := [
    Rule([Device(LOOPBACK)], Accept),
    Rule([Device(TUN_IFACE)], Accept),
    Rule([IsReply], Accept),
    Rule([ToLocal], Accept)]

  const KS_MARKS: seq<Rule> := [
    Rule([Marked(DNS_MARK)], Accept),
    Rule([Marked(XRAY_DIAL_MARK)], Accept),
    Rule([Marked(BYPASS_MARK)], Accept),
    Rule([CtMarked(DNS_MARK)], Accept),
    Rule([CtMarked(XRAY_DIAL_MARK)], Accept),
    Rule([CtMarked(BYPASS_MARK)], Accept)]

  const KS_RESOLVER: seq<Rule> := [
    Rule([To([RESOLVER]), Port(Udp, 53)], Accept),
    Rule([To([RESOLVER]), Port(Tcp, 53)], Accept),
    Rule([To([RESOLVER]), Port(Tcp, 443)], Accept)]

  const KS_LAN_DNS: seq<Rule> := [
    Rule([Port(Udp, 53), To(LAN4)], Drop),
    Rule([Port(Tcp, 53), To(LAN4)], Drop),
    Rule([Port(Udp, 53), To(LAN6)], Drop),
    Rule([Port(Tcp, 53), To(LAN6)], Drop)]

  const KS_LAN: seq<Rule> := [Rule([To(LAN4)], Accept), Rule([To(LAN6)], Accept)]

  const KS_END: seq<Rule> := [Rule([], Log), Rule([], Drop)]

  predicate Ours(mark: nat) {
    Low(mark) == DNS_MARK || Low(mark) == XRAY_DIAL_MARK || Low(mark) == BYPASS_MARK
  }

  predicate InLan(address: Address) {
    InAny(LAN4, address) || InAny(LAN6, address)
  }

  predicate Flow(p: Packet) {
    p.device == LOOPBACK || p.device == TUN_IFACE || p.reply || p.local || Ours(p.mark) || Ours(p.ctMark)
  }

  predicate ToResolver(p: Packet) {
    p.destination == Ip4(1, 1, 1, 1) && (IsDns(p) || (p.protocol == Tcp && p.port == 443))
  }

  /** Everything the kill switch lets out. */
  predicate Sanctioned(servers: seq<Address>, allowLan: bool, p: Packet) {
    Flow(p) || ToResolver(p) || p.destination in servers || (allowLan && InLan(p.destination) && !IsDns(p))
  }

  lemma PathsChain(p: Packet)
    ensures FirstVerdict(KS_PATHS, p)
            == if p.device == LOOPBACK || p.device == TUN_IFACE || p.reply || p.local then Some(Accept) else None
  {
    var g := KS_PATHS;
    Hold1(Device(LOOPBACK), p);
    Hold1(Device(TUN_IFACE), p);
    Hold1(IsReply, p);
    Hold1(ToLocal, p);
    hide AllHold;
    var t3 := [g[3]] + [];
    var t2 := [g[2]] + t3;
    var t1 := [g[1]] + t2;
    VerdictFirst(g[3], [], p);
    VerdictFirst(g[2], t3, p);
    VerdictFirst(g[1], t2, p);
    VerdictFirst(g[0], t1, p);
    assert g == [g[0]] + t1;
  }

  lemma MarksChain(p: Packet)
    ensures FirstVerdict(KS_MARKS, p) == if Ours(p.mark) || Ours(p.ctMark) then Some(Accept) else None
  {
    var g := KS_MARKS;
    Hold1(Marked(DNS_MARK), p);
    Hold1(Marked(XRAY_DIAL_MARK), p);
    Hold1(Marked(BYPASS_MARK), p);
    Hold1(CtMarked(DNS_MARK), p);
    Hold1(CtMarked(XRAY_DIAL_MARK), p);
    Hold1(CtMarked(BYPASS_MARK), p);
    hide AllHold, Low;
    var t5 := [g[5]] + [];
    var t4 := [g[4]] + t5;
    var t3 := [g[3]] + t4;
    var t2 := [g[2]] + t3;
    var t1 := [g[1]] + t2;
    VerdictFirst(g[5], [], p);
    VerdictFirst(g[4], t5, p);
    VerdictFirst(g[3], t4, p);
    VerdictFirst(g[2], t3, p);
    VerdictFirst(g[1], t2, p);
    VerdictFirst(g[0], t1, p);
    assert g == [g[0]] + t1;
  }

  lemma ResolverChain(p: Packet)
    ensures FirstVerdict(KS_RESOLVER, p) == if ToResolver(p) then Some(Accept) else None
  {
    var g := KS_RESOLVER;
    OnePrefix(RESOLVER, p.destination);
    HostIsExact(Ip4(1, 1, 1, 1), p.destination);
    Hold2(To([RESOLVER]), Port(Udp, 53), p);
    Hold2(To([RESOLVER]), Port(Tcp, 53), p);
    Hold2(To([RESOLVER]), Port(Tcp, 443), p);
    hide AllHold, InAny, Contains;
    var t2 := [g[2]] + [];
    var t1 := [g[1]] + t2;
    VerdictFirst(g[2], [], p);
    VerdictFirst(g[1], t2, p);
    VerdictFirst(g[0], t1, p);
    assert g == [g[0]] + t1;
  }

  lemma LanDnsChain(p: Packet)
    ensures FirstVerdict(KS_LAN_DNS, p) == if InLan(p.destination) && IsDns(p) then Some(Drop) else None
  {
    var g := KS_LAN_DNS;
    Hold2(Port(Udp, 53), To(LAN4), p);
    Hold2(Port(Tcp, 53), To(LAN4), p);
    Hold2(Port(Udp, 53), To(LAN6), p);
    Hold2(Port(Tcp, 53), To(LAN6), p);
    hide AllHold, InAny;
    var t3 := [g[3]] + [];
    var t2 := [g[2]] + t3;
    var t1 := [g[1]] + t2;
    VerdictFirst(g[3], [], p);
    VerdictFirst(g[2], t3, p);
    VerdictFirst(g[1], t2, p);
    VerdictFirst(g[0], t1, p);
    assert g == [g[0]] + t1;
  }

  lemma LanChain(p: Packet)
    ensures FirstVerdict(KS_LAN, p) == if InLan(p.destination) then Some(Accept) else None
    ensures FirstVerdict(KS_END, p) == Some(Drop)
  {
    Hold1(To(LAN4), p);
    Hold1(To(LAN6), p);
    VerdictFirst(KS_LAN[1], [], p);
    VerdictFirst(KS_LAN[0], [KS_LAN[1]] + [], p);
    assert KS_LAN == [KS_LAN[0]] + ([KS_LAN[1]] + []);
    VerdictFirst(KS_END[1], [], p);
    VerdictFirst(KS_END[0], [KS_END[1]] + [], p);
    assert KS_END == [KS_END[0]] + ([KS_END[1]] + []);
  }

  lemma ServerRule(server: Address, p: Packet)
    ensures FirstVerdict([Rule([To([Host(server)])], Accept)], p)
            == if p.destination == server then Some(Accept) else None
  {
    Hold1(To([Host(server)]), p);
    OnePrefix(Host(server), p.destination);
    HostIsExact(server, p.destination);
    assert [Rule([To([Host(server)])], Accept)][1..] == [];
  }

  /** The rules of the kill switch, and exactly which packets they let out. */
  method KillswitchRules(servers: seq<Address>, allowLan: bool) returns (rules: seq<Rule>)
    ensures forall p :: FirstVerdict(rules, p) == Some(if Sanctioned(servers, allowLan, p) then Accept else Drop)
  {
    rules := KS_PATHS + KS_MARKS + KS_RESOLVER;
    forall p ensures FirstVerdict(rules, p) == if Flow(p) || ToResolver(p) then Some(Accept) else None {
      VerdictConcat(KS_PATHS + KS_MARKS, KS_RESOLVER, p);
      VerdictConcat(KS_PATHS, KS_MARKS, p);
      PathsChain(p);
      MarksChain(p);
      ResolverChain(p);
    }
    hide Flow, ToResolver, InLan, IsDns, FirstVerdict;
    for i := 0 to |servers|
      invariant forall p :: FirstVerdict(rules, p)
                         == if Flow(p) || ToResolver(p) || p.destination in servers[..i] then Some(Accept) else None
    {
      var rule := Rule([To([Host(servers[i])])], Accept);
      assert servers[..i + 1] == servers[..i] + [servers[i]];
      forall p
        ensures FirstVerdict(rules + [rule], p)
             == if Flow(p) || ToResolver(p) || p.destination in servers[..i + 1] then Some(Accept) else None
      {
        VerdictConcat(rules, [rule], p);
        ServerRule(servers[i], p);
      }
      rules := rules + [rule];
    }
    assert servers[..|servers|] == servers;
    ghost var open := rules;
    var lan := if allowLan then KS_LAN else [];
    rules := rules + KS_LAN_DNS;
    ghost var guarded := rules;
    rules := rules + lan;
    ghost var wide := rules;
    rules := rules + KS_END;
    forall p ensures FirstVerdict(rules, p) == Some(if Sanctioned(servers, allowLan, p) then Accept else Drop) {
      VerdictConcat(open, KS_LAN_DNS, p);
      VerdictConcat(guarded, lan, p);
      VerdictConcat(wide, KS_END, p);
      LanDnsChain(p);
      LanChain(p);
      NoVerdict(p);
    }
  }

  lemma NoVerdict(p: Packet)
    ensures FirstVerdict([], p) == None
  {
  }

  // ---- DNS through all of them ----

  /** Laying the routing on a host that uses the DNS mark for nothing else sends the mark into the tunnel. */
  lemma RouteUpSendsDnsMark(n: Kernel.Net, path: Kernel.Path, path6: Option<Kernel.Path>, servers: seq<Address>)
    requires NetHelper.Clean(n, servers) && !NetHelper.HasMark(n.rules4, DNS_MARK)
    ensures PolicyRouting.AlwaysBy(NetHelper.Up(n, path, path6, servers), DNS_MARK, Kernel.Tun)
  {
    UpTables(n, path, path6, servers);
    hide NetHelper.Throws, NetHelper.Up;
  }

  predicate Passes(rules: seq<Rule>, p: Packet) {
    FirstVerdict(rules, p) in {None, Some(Accept)}
  }

  /** The device a path leads out by; a packet without one is not sent. */
  function DeviceOf(path: Kernel.Path): Option<string> {
    match path
    case Tun => Some(TUN_IFACE)
    case Physical(_, device) => Some(device)
    case _ => None
  }

  /** DNS to another host over IPv4. */
  predicate IsRemoteDns(sent: Packet) {
    sent.destination.V4? && !sent.local && !Contains(Net4(127, 0, 8), sent.destination) && IsDns(sent)
  }

  /** The packet as the filter chains see it: marked, and on the device of its route. */
  function Leaving(sent: Packet, path: Kernel.Path): Packet
    requires DeviceOf(path).Some?
  {
    Remarked(MARK_OUTPUT, sent).(device := DeviceOf(path).value)
  }

  /** What becomes of a DNS packet that goes by `path`. */
  predicate Confined(killswitch: seq<Rule>, sent: Packet, path: Kernel.Path)
    requires DeviceOf(path).Some?
  {
    var p := Leaving(sent, path);
    && (Low(sent.mark) != XRAY_DIAL_MARK && Low(sent.mark) != BYPASS_MARK ==>
          p.device == TUN_IFACE && FirstVerdict(GUARD_OUTPUT, p) == Some(Accept) && Passes(killswitch, p))
    && (Low(sent.mark) == XRAY_DIAL_MARK ==> FirstVerdict(GUARD_OUTPUT, p) == Some(Reject))
    && (p.device != TUN_IFACE && Passes(GUARD_OUTPUT, p) && Passes(killswitch, p) <==>
        p.device != TUN_IFACE && Low(sent.mark) == BYPASS_MARK)
  }

  predicate IsKillswitch(rules: seq<Rule>, servers: seq<Address>, allowLan: bool, p: Packet) {
    FirstVerdict(rules, p) == Some(if Sanctioned(servers, allowLan, p) then Accept else Drop)
  }

  /**
   Every IPv4 DNS packet to another host, through the marking chain, the route lookup, the guard and the kill
   switch: one that neither Xray nor the split sent leaves by the tunnel and is accepted all the way; one Xray
   sent is rejected; so only the split's mark gets DNS out on any other device.
   */
  lemma DnsStaysInTheTunnel(nets: PolicyRouting.Networks, n: Kernel.Net, order: seq<Kernel.TableId>,
                            servers: seq<Address>, allowLan: bool, killswitch: seq<Rule>, sent: Packet,
                            path: Kernel.Path)
    requires PolicyRouting.AlwaysBy(n, DNS_MARK, Kernel.Tun) && PolicyRouting.AllAvoid(n, LOOPBACK)
    requires Kernel.DnsTable in order && IsRemoteDns(sent) && DeviceOf(path).Some?
    requires IsKillswitch(killswitch, servers, allowLan, Leaving(sent, path))
    requires PolicyRouting.GoesBy(nets, n, Remarked(MARK_OUTPUT, sent).mark, sent.destination, order, path)
    ensures Confined(killswitch, sent, path)
  {
    var p := Leaving(sent, path);
    MarkingChain(sent);
    GuardChain(p);
    PolicyRouting.NeverBy(nets, n, Remarked(MARK_OUTPUT, sent).mark, sent.destination, order, LOOPBACK, path);
    if Low(sent.mark) != XRAY_DIAL_MARK && Low(sent.mark) != BYPASS_MARK {
      PolicyRouting.MarkDecides(nets, n, DNS_MARK, sent.destination, order, Kernel.Tun, path);
    }
    hide FirstVerdict, Remarked, Contains, InLan, PolicyRouting.GoesBy, PolicyRouting.AllAvoid, PolicyRouting.AlwaysBy;
    assert Low(DNS_MARK) == DNS_MARK && TUN_IFACE != LOOPBACK;
    assert Sanctioned(servers, allowLan, p) <== Ours(p.mark);
  }

  // ---- From a clean host ----

  lemma {:induction false} PinnedAvoids(table: Kernel.Table, servers: seq<Address>, n: nat, path: Kernel.Path,
                                        device: string)
    requires n <= |servers| && PolicyRouting.Avoids(table, device) && (path.Physical? ==> path.device != device)
    ensures PolicyRouting.Avoids(NetHelper.Pinned(table, servers, n, path, false), device)
  {
    if n > 0 {
      PinnedAvoids(table, servers, n - 1, path, device);
    }
  }

  lemma {:induction false} ThrowsAvoid(table: Kernel.Table, names: seq<string>, n: nat, device: string)
    requires n <= |names| && PolicyRouting.Avoids(table, device)
    ensures PolicyRouting.Avoids(NetHelper.Throws(table, names, n), device)
  {
    if n > 0 {
      ThrowsAvoid(table, names, n - 1, device);
    }
  }

  lemma UpAvoids(n: Kernel.Net, path: Kernel.Path, path6: Option<Kernel.Path>, servers: seq<Address>, device: string)
    requires NetHelper.Clean(n, servers) && PolicyRouting.AllAvoid(n, device)
    requires path.Physical? && path.device != device
    ensures PolicyRouting.AllAvoid(NetHelper.Up(n, path, path6, servers), device)
  {
    PinnedAvoids(n.main4, servers, |servers|, path, device);
    ThrowsAvoid(n.phys4[Kernel.Everything := path], NetHelper.LOCAL_THROWS, |NetHelper.LOCAL_THROWS|, device);
    BaseTables(n, path, path6);
    UpTables(n, path, path6, servers);
    hide NetHelper.Throws, NetHelper.Pinned, NetHelper.Clean, NetHelper.Up, NetHelper.Base;
  }

  lemma BaseTables(n: Kernel.Net, path: Kernel.Path, path6: Option<Kernel.Path>)
    ensures var base, throws := NetHelper.Base(n, path, path6), NetHelper.LOCAL_THROWS;
            && base.main4 == n.main4 && base.split4 == n.split4 && base.dns4 == n.dns4[Kernel.Everything := Kernel.Tun]
            && base.phys4 == NetHelper.Throws(n.phys4[Kernel.Everything := path], throws, |throws|)
  {
    hide NetHelper.Throws, NetHelper.WithRule;
  }

  lemma UpTables(n: Kernel.Net, path: Kernel.Path, path6: Option<Kernel.Path>, servers: seq<Address>)
    ensures var up, base := NetHelper.Up(n, path, path6, servers), NetHelper.Base(n, path, path6);
            && up.phys4 == base.phys4 && up.dns4 == base.dns4 && up.split4 == base.split4 && up.rules4 == base.rules4
            && up.main4 == NetHelper.Pinned(base.main4, servers, |servers|, path, false)
                 [Kernel.LowHalf := Kernel.Tun][Kernel.HighHalf := Kernel.Tun]
  {
    hide NetHelper.Pinned, NetHelper.Family, NetHelper.Base;
  }

  /** Every DNS packet, whatever route its mark and the tables give it. */
  ghost predicate DnsConfined(n: Kernel.Net, killswitch: seq<Rule>) {
    forall nets, order, sent, path ::
      Kernel.DnsTable in order && IsRemoteDns(sent) && DeviceOf(path).Some?
      && PolicyRouting.GoesBy(nets, n, Remarked(MARK_OUTPUT, sent).mark, sent.destination, order, path)
      ==> Confined(killswitch, sent, path)
  }

  /** From a clean host: once route-up has succeeded and the kill switch is in place, no DNS packet gets out but
      through the tunnel or under the split's mark. */
  method BringUpGuarded(k: Kernel.Kernel, physical: Kernel.Path, path6: Option<Kernel.Path>, servers: seq<Address>,
                        allowLan: bool)
    returns (ok: bool, killswitch: seq<Rule>)
    requires physical.Physical? && physical.device != LOOPBACK && (path6.Some? ==> path6.value.Physical?)
    requires NetHelper.Clean(k.net, servers) && !NetHelper.HasMark(k.net.rules4, DNS_MARK)
    requires PolicyRouting.AllAvoid(k.net, LOOPBACK)
    modifies k
    ensures ok ==> DnsConfined(k.net, killswitch)
  {
    ghost var n := k.net;
    RouteUpSendsDnsMark(n, physical, path6, servers);
    UpAvoids(n, physical, path6, servers, LOOPBACK);
    hide NetHelper.Up, NetHelper.Undoes, NetHelper.Pinned, NetHelper.Commands, NetHelper.Clean,
         PolicyRouting.AllAvoid, PolicyRouting.AlwaysBy, PolicyRouting.GoesBy, FirstVerdict, Sanctioned, Remarked,
         IsRemoteDns, Confined;
    ghost var laid4, laid6;
    ok, laid4, laid6 := NetHelper.RouteUp(k, Some(physical), path6, servers);
    killswitch := KillswitchRules(servers, allowLan);
    if ok {
      forall nets, order, sent, path |
        Kernel.DnsTable in order && IsRemoteDns(sent) && DeviceOf(path).Some?
        && PolicyRouting.GoesBy(nets, k.net, Remarked(MARK_OUTPUT, sent).mark, sent.destination, order, path)
        ensures Confined(killswitch, sent, path)
      {
        DnsStaysInTheTunnel(nets, k.net, order, servers, allowLan, killswitch, sent, path);
      }
    }
  }
}
