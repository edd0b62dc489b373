/** What the kill switch lets out of the host, told by devices, marks, ports and ranges of addresses. */
module FilterLaws {
  import opened Basics
  import opened Addresses
  import opened AddressRanges
  import opened Firewall

  /** The low half of a mark is one of 0x2023, 0x2024 and 0x2025. */
  predicate IsOurMark(mark: nat) {
    mark % 0x1_0000 in {0x2023, 0x2024, 0x2025}
  }

  predicate IsPort53(p: Packet) {
    p.protocol in {Udp, Tcp} && p.port == 53
  }

  /** A packet may leave through the tunnel or loopback, in reply, to the host itself or under a mark of ours; to the
      resolver 1.1.1.1 for DNS, plain or over HTTPS; to a server; and, if the LAN is allowed, to a local network but
      not for DNS. */
  predicate MayLeave(servers: seq<Address>, allowLan: bool, p: Packet) {
    || p.device in {"lo", "varmlen0"} || p.reply || p.local
    || IsOurMark(p.mark) || IsOurMark(p.ctMark)
    || (p.destination == V4(0x0101_0101) && (IsPort53(p) || (p.protocol == Tcp && p.port == 443)))
    || p.destination in servers
    || (allowLan && (IsLan4(p.destination) || IsLan6(p.destination)) && !IsPort53(p))
  }

  lemma LanMeans(address: Address)
    ensures InLan(address) <==> IsLan4(address) || IsLan6(address)
  {
    Lan4Means(address);
    Lan6Means(address);
    hide Contains, IsLan4, IsLan6;
    assert InAny(LAN4, address) <==>
           || Contains(LAN4[0], address) || Contains(LAN4[1], address) || Contains(LAN4[2], address)
           || Contains(LAN4[3], address) || Contains(LAN4[4], address);
    assert InAny(LAN6, address) <==> Contains(LAN6[0], address) || Contains(LAN6[1], address);
  }

  /** Exactly these packets are the sanctioned ones. */
  lemma KillswitchLetsOut(servers: seq<Address>, allowLan: bool, p: Packet)
    ensures Sanctioned(servers, allowLan, p) <==> MayLeave(servers, allowLan, p)
  {
    LanMeans(p.destination);
    hide InLan, IsLan4, IsLan6;
    assert Ip4(1, 1, 1, 1) == V4(0x0101_0101);
  }

  /** The built chain, told so. */
  method BuildKillswitch(servers: seq<Address>, allowLan: bool) returns (rules: seq<Rule>)
    ensures forall p :: FirstVerdict(rules, p) == Some(if MayLeave(servers, allowLan, p) then Accept else Drop)
  {
    rules := KillswitchRules(servers, allowLan);
    forall p
      ensures FirstVerdict(rules, p) == Some(if MayLeave(servers, allowLan, p) then Accept else Drop)
    {
      KillswitchLetsOut(servers, allowLan, p);
    }
  }
}
