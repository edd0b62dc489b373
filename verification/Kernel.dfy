/**
 The kernel state the helper and the daemon change: routing tables, mark rules, the reverse-path
 filter, and the state files the helper leaves itself under /run/varmlen.

 A command that may fail asks the oracle `fails`; a failed command changes nothing. Deleting what
 exists succeeds, and deleting what does not exist changes nothing.
 */
module Kernel {
  import opened Basics
  import opened Addresses

  /** A next hop: the physical network, the tunnel device, back to the next rule, or nowhere. */
  datatype Path = Physical(gateway: Option<string>, device: string) | Tun | Throw | Blackhole

  /** `LowHalf` and `HighHalf` are 0.0.0.0/1 and 128.0.0.0/1, or ::/1 and 8000::/1. */
  datatype Destination = Everything | LowHalf | HighHalf | HostRoute(address: Address) | Network(name: string)

  type Table = map<Destination, Path>

  /** Tables 100 (physical bypass), 101 (DNS into the tunnel) and 102 (per-app split). */
  datatype TableId = PhysTable | DnsTable | SplitTable

  datatype MarkRule = MarkRule(mark: nat, table: TableId)

  datatype Net = Net(
    main4: Table, main6: Table,
    phys4: Table, phys6: Table,
    dns4: Table, split4: Table,
    rules4: multiset<MarkRule>, rules6: multiset<MarkRule>,
    rpFilter: nat,
    serversFile: Option<seq<Address>>, servers6File: Option<seq<Address>>, rpFile: Option<nat>,
    splitChains: bool)

  class Kernel {
    const fails: nat -> bool
    var asked: nat
    var net: Net
    /** Every network state the commands so far have passed through, in order. */
    ghost var seen: seq<Net>

    constructor (fails: nat -> bool, net: Net)
      ensures this.fails == fails && this.net == net && asked == 0 && seen == [net]
    {
      this.fails, this.net, asked, seen := fails, net, 0, [net];
    }

    /** A command whose failure the caller sees. */
    method Try(next: Net) returns (ok: bool)
      modifies this
      ensures ok == !fails(old(asked)) && asked == old(asked) + 1
      ensures net == if ok then next else old(net)
      ensures seen == old(seen) + [net]
    {
      ok := !fails(asked);
      asked := asked + 1;
      if ok {
        net := next;
      }
      seen := seen + [net];
    }

    /** A command whose result is ignored because only its effect matters. */
    method Do(next: Net)
      modifies this
      ensures net == next && asked == old(asked)
      ensures seen == old(seen) + [next]
    {
      net := next;
      seen := seen + [next];
    }
  }

  /** A stretch of at most `total` commands, asked from number `from` up to `to`: either all of them went
      well, or all before the last one asked did and that one failed. */
  predicate Ran(fails: nat -> bool, from: nat, to: nat, ok: bool, total: nat) {
    if ok then to == from + total && forall c :: from <= c < to ==> !fails(c)
    else from < to <= from + total && fails(to - 1) && forall c :: from <= c < to - 1 ==> !fails(c)
  }
}
