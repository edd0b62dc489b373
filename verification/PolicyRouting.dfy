/** How the kernel finds the way of a packet: the rules of its mark in order, and the longest prefix of a table. */
module PolicyRouting {
  import opened Addresses
  import opened Kernel

  /** What the names of network routes stand for. */
  datatype Networks = Networks(covers: (string, Address) -> bool, length: string -> nat)

  /** The first address of the upper half of a family: 128.0.0.0 or 8000::. */
  function Middle(address: Address): nat {
    if address.V4? then 0x8000_0000 else 0x8000_0000_0000_0000_0000_0000_0000_0000
  }

  predicate Covers(nets: Networks, d: Destination, address: Address) {
    match d
    case Everything => true
    case LowHalf => address.bits < Middle(address)
    case HighHalf => address.bits >= Middle(address)
    case HostRoute(host) => host == address
    case Network(name) => nets.covers(name, address)
  }

  function Length(nets: Networks, d: Destination): nat {
    match d
    case Everything => 0
    case LowHalf => 1
    case HighHalf => 1
    case HostRoute(host) => if host.V4? then 32 else 128
    case Network(name) => nets.length(name)
  }

  /** `d` is a route of the table for the address, and no longer one is. */
  ghost predicate Best(nets: Networks, table: Table, address: Address, d: Destination) {
    && d in table && Covers(nets, d, address)
    && forall e :: e in table && Covers(nets, e, address) ==> Length(nets, e) <= Length(nets, d)
  }

  /** The table sends the address on by `path`. */
  ghost predicate Sends(nets: Networks, table: Table, address: Address, path: Path) {
    exists d :: Best(nets, table, address, d) && table[d] == path
  }

  /** The table has no say: no route, or one that throws back to the next rule. */
  ghost predicate Silent(nets: Networks, table: Table, address: Address) {
    Sends(nets, table, address, Throw) || forall d :: d in table ==> !Covers(nets, d, address)
  }

  function TableOf(n: Net, id: TableId): Table {
    match id
    case PhysTable => n.phys4
    case DnsTable => n.dns4
    case SplitTable => n.split4
  }

  /** An IPv4 packet of this mark to another host goes by `path`: the rules of the mark in the order of their
      priorities, then the main table. */
  ghost predicate GoesBy(nets: Networks, n: Net, mark: nat, address: Address, order: seq<TableId>, path: Path) {
    if order == [] then Sends(nets, n.main4, address, path)
    else if MarkRule(mark, order[0]) !in n.rules4 then GoesBy(nets, n, mark, address, order[1..], path)
    else
      var table := TableOf(n, order[0]);
      || (path != Throw && Sends(nets, table, address, path))
      || (Silent(nets, table, address) && GoesBy(nets, n, mark, address, order[1..], path))
  }

  /** One table for the mark, and in that table one route for everything. */
  predicate AlwaysBy(n: Net, mark: nat, path: Path) {
    && MarkRule(mark, DnsTable) in n.rules4
    && MarkRule(mark, PhysTable) !in n.rules4
    && MarkRule(mark, SplitTable) !in n.rules4
    && n.dns4 == map[Everything := path]
  }

  /** Then every packet of the mark goes that way and no other, in whatever order the rules are. */
  lemma {:induction false} MarkDecides(nets: Networks, n: Net, mark: nat, address: Address, order: seq<TableId>,
                                       always: Path, path: Path)
    requires AlwaysBy(n, mark, always) && always != Throw && DnsTable in order
    ensures GoesBy(nets, n, mark, address, order, path) <==> path == always
  {
    if order[0] == DnsTable {
      assert Best(nets, n.dns4, address, Everything);
      assert Sends(nets, n.dns4, address, always);
      assert !Silent(nets, n.dns4, address);
    } else {
      MarkDecides(nets, n, mark, address, order[1..], always, path);
    }
  }

  /** No table routes to the device. */
  predicate Avoids(table: Table, device: string) {
    forall d :: d in table && table[d].Physical? ==> table[d].device != device
  }

  predicate AllAvoid(n: Net, device: string) {
    Avoids(n.main4, device) && Avoids(n.phys4, device) && Avoids(n.dns4, device) && Avoids(n.split4, device)
  }

  /** So no packet takes it. */
  lemma {:induction false} NeverBy(nets: Networks, n: Net, mark: nat, address: Address, order: seq<TableId>,
                                   device: string, path: Path)
    requires AllAvoid(n, device) && GoesBy(nets, n, mark, address, order, path)
    ensures path.Physical? ==> path.device != device
  {
    if order != [] {
      if GoesBy(nets, n, mark, address, order[1..], path) {
        NeverBy(nets, n, mark, address, order[1..], device, path);
      }
    }
  }
}
