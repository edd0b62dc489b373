/**
 The daemon's bookkeeping of the per-app split: which list is live, and the routing it keeps beside the
 helper's through activations, live edits and reconnects.
 */
module SplitBackend {
  import opened Basics
  import opened Addresses
  import opened Kernel
  import opened Marks
  import NetHelper

  /** A split that is up: the applications its rules name, and whether its watcher and routes are. */
  datatype Live = Live(running: seq<string>, watching: bool, routed: bool)

  /** What the daemon remembers: the live split, and the list it believes the split runs. */
  datatype Book = Book(split: Option<Live>, apps: seq<string>)

  const SPLIT_RULE: MarkRule := MarkRule(BYPASS_MARK, SplitTable)

  function SplitRoutes(path: Path): Table {
    NetHelper.Throws(map[Everything := path], NetHelper.LOCAL_THROWS, |NetHelper.LOCAL_THROWS|)
  }

  /** `p` differs from `n` only in what belongs to the split: its table, its chains and its rule. */
  ghost predicate SplitOnly(n: Net, p: Net) {
    && p == n.(split4 := p.split4, splitChains := p.splitChains, rules4 := p.rules4)
    && (forall rule :: rule != SPLIT_RULE ==> p.rules4[rule] == n.rules4[rule])
  }

  predicate SplitRouted(n: Net, path: Path) {
    SPLIT_RULE in n.rules4 && n.split4 == SplitRoutes(path) && n.splitChains
  }

  lemma SplitOnlyTransitive(a: Net, b: Net, c: Net)
    requires SplitOnly(a, b) && SplitOnly(b, c)
    ensures SplitOnly(a, c)
  {
  }

  // ---- The split's own routing ----

  method TearDownRouting(k: Kernel)
    modifies k
    ensures k.net == old(k.net).(rules4 := old(k.net).rules4 - multiset{SPLIT_RULE}, split4 := map[])
    ensures k.asked == old(k.asked)
  {
    k.Do(k.net.(rules4 := k.net.rules4 - multiset{SPLIT_RULE}));
    k.Do(k.net.(split4 := map[]));
  }

  method InstallRouting(k: Kernel, path: Path) returns (ok: bool)
    modifies k
    ensures SplitOnly(old(k.net), k.net)
    ensures ok ==> SplitRouted(k.net, path)
  {
    ghost var n := k.net;
    TearDownRouting(k);
    ok := k.Try(k.net.(split4 := map[Everything := path]));
    if !ok {
      return;
    }
    ghost var b := k.net;
    var names := NetHelper.LOCAL_THROWS;
    for i := 0 to |names|
      invariant k.net == b.(split4 := NetHelper.Throws(map[Everything := path], names, i))
    {
      ok := k.Try(k.net.(split4 := k.net.split4[Network(names[i]) := Throw]));
      if !ok {
        return;
      }
    }
    ok := k.Try(k.net.(rules4 := k.net.rules4 + multiset{SPLIT_RULE}));
    if !ok {
      return;
    }
    ok := k.Try(k.net.(splitChains := true));
  }

  /** The split's rule and table gone; its chains may be left. */
  function Unrouted(n: Net, chains: bool): Net {
    n.(rules4 := n.rules4 - multiset{SPLIT_RULE}, split4 := map[], splitChains := chains)
  }

  method RemoveRouting(k: Kernel) returns (ok: bool)
    modifies k
    ensures SplitOnly(old(k.net), k.net)
    ensures k.net == Unrouted(old(k.net), !ok && old(k.net).splitChains)
    ensures Ran(k.fails, old(k.asked), k.asked, ok, 1)
  {
    TearDownRouting(k);
    ok := k.Try(k.net.(splitChains := false));
  }

  // ---- What the book says after each operation ----

  /** After a successful TUN activation. */
  function Activated(b: Book, apps: seq<string>): Book {
    if apps == [] then Book(None, if b.split.Some? then [] else b.apps)
    else if b.split.Some? && b.apps == apps then Book(Some(b.split.value.(routed := true)), apps)
    else Book(Some(Live(apps, true, true)), apps)
  }

  /** Where a TUN activation failed: laying the helper's routing, removing the old split, applying the new one,
      laying the routes of a kept one again, or installing the DNS guard. */
  datatype Setback = RoutingFailed | SplitStuck | SplitRefused | RoutesLost | GuardRefused

  predicate Possible(b: Book, apps: seq<string>, setback: Setback) {
    var swaps := b.split.Some? && (apps == [] || b.apps != apps);
    match setback
    case SplitStuck => swaps
    case SplitRefused => apps != [] && (b.split.None? || swaps)
    case RoutesLost => apps != [] && b.split.Some? && !swaps
    case _ => true
  }

  /** After a failed one. */
  function Abandoned(b: Book, apps: seq<string>, setback: Setback): Book {
    match setback
    case SplitStuck => Book(None, [])
    case SplitRefused => if b.split.Some? then Book(None, []) else b
    case GuardRefused => Activated(b, apps)
    case _ => b
  }

  /** How far a live edit came: `RulesRefused` leaves the old rules, `WatcherLost` and `ProcessesLost`
      fail after the new rules are in. */
  datatype Edit = Edited | RulesRefused | WatcherLost | ProcessesLost

  function PlanUpdated(live: Live, apps: seq<string>, edit: Edit): Live {
    match edit
    case Edited => live.(running := apps, watching := true)
    case RulesRefused => live
    case WatcherLost => live.(running := apps, watching := false)
    case ProcessesLost => live.(running := apps, watching := true)
  }

  /** No command asked in between failed. */
  predicate NoneFailed(fails: nat -> bool, from: nat, to: nat) {
    forall c :: from <= c < to ==> !fails(c)
  }

  class Backend {
    const kernel: Kernel
    var split: Option<Live>
    var splitApps: seq<string>
    var dnsActive: bool

    constructor (kernel: Kernel)
      ensures this.kernel == kernel && View() == Book(None, [])
    {
      this.kernel := kernel;
      split, splitApps, dnsActive := None, [], false;
    }

    function View(): Book
      reads this
    {
      Book(split, splitApps)
    }

    /** The layers of the split that are not routing: control group, socket mark, direct DNS, watcher. */
    method Step() returns (ok: bool)
      modifies kernel
      ensures kernel.net == old(kernel.net)
      ensures Ran(kernel.fails, old(kernel.asked), kernel.asked, ok, 1)
    {
      ok := kernel.Try(kernel.net);
    }

    method ApplyLayers(physical: Option<Path>, apps: seq<string>) returns (ok: bool, routed: bool)
      modifies kernel
      ensures SplitOnly(old(kernel.net), kernel.net)
      ensures ok ==> physical.Some? && SplitRouted(kernel.net, physical.value) && apps != []
    {
      ok := Step();
      if !ok {
        return false, false;
      }
      ok := Step();
      if !ok || physical.None? {
        return false, false;
      }
      ok := InstallRouting(kernel, physical.value);
      if !ok {
        return false, false;
      }
      ok := Step();
      if !ok || apps == [] {
        return false, true;
      }
      ok := Step();
      if !ok {
        return false, true;
      }
      ok := Step();
      routed := true;
    }

    method ApplySplit(physical: Option<Path>, apps: seq<string>) returns (ok: bool)
      modifies this, kernel
      ensures SplitOnly(old(kernel.net), kernel.net)
      ensures View() == if ok then Book(Some(Live(apps, true, true)), apps) else old(View())
      ensures dnsActive == old(dnsActive)
      ensures ok ==> physical.Some? && SplitRouted(kernel.net, physical.value) && apps != []
    {
      var routed;
      ok, routed := ApplyLayers(physical, apps);
      if !ok {
        ghost var n := kernel.net;
        if routed {
          var _ := RemoveRouting(kernel);
          SplitOnlyTransitive(old(kernel.net), n, kernel.net);
        }
        return;
      }
      split := Some(Live(apps, true, true));
      splitApps := apps;
    }

    method RemoveSplit() returns (ok: bool)
      modifies this, kernel
      ensures SplitOnly(old(kernel.net), kernel.net)
      ensures View() == Book(None, []) && dnsActive == old(dnsActive)
      ensures kernel.net == if old(split).Some? && old(split).value.routed
                            then Unrouted(old(kernel.net), kernel.net.splitChains) else old(kernel.net)
      ensures old(split).None? ==> ok
      ensures kernel.asked >= old(kernel.asked)
      ensures NoneFailed(kernel.fails, old(kernel.asked), kernel.asked) <==> ok
    {
      if split.None? {
        splitApps := [];
        return true;
      }
      var live := split.value;
      split := None;
      ok := Step();
      if live.routed {
        var removed := RemoveRouting(kernel);
        ok := ok && removed;
      }
      splitApps := [];
    }

    /** A live edit of the list while the tunnel stays up. */
    method UpdateSplit(physical: Option<Path>, apps: seq<string>) returns (ok: bool, ghost edit: Edit)
      modifies this, kernel
      ensures SplitOnly(old(kernel.net), kernel.net)
      ensures ok ==> (split.Some? <==> apps != [])
      ensures ok && apps != [] ==> split.value.running == apps && splitApps == apps
      ensures apps == [] ==> View() == Book(None, [])
      ensures apps != [] && old(split).Some? ==>
                split == Some(PlanUpdated(old(split).value, apps, edit)) && (ok <==> edit == Edited)
                && splitApps == if ok then apps else old(splitApps)
      ensures apps != [] && old(split).None? ==>
                View() == if ok then Book(Some(Live(apps, true, true)), apps) else old(View())
    {
      edit := Edited;
      if apps == [] {
        ok := RemoveSplit();
        return;
      }
      if split.Some? {
        ok := Step();
        if !ok {
          return false, RulesRefused;
        }
        split := Some(split.value.(running := apps, watching := false));
        ok := Step();
        if !ok {
          return false, WatcherLost;
        }
        split := Some(split.value.(watching := true));
        ok := Step();
        if !ok {
          return false, ProcessesLost;
        }
        splitApps := apps;
        return;
      }
      ok := ApplySplit(physical, apps);
    }

    method RemoveDns() returns (ok: bool)
      modifies this`dnsActive, kernel
      ensures kernel.net == old(kernel.net)
      ensures dnsActive == (old(dnsActive) && !ok)
      ensures NoneFailed(kernel.fails, old(kernel.asked), kernel.asked) <==> ok
      ensures kernel.asked >= old(kernel.asked)
    {
      ok := true;
      if dnsActive {
        ok := Step();
        dnsActive := !ok;
      }
    }

    /** Stop the data plane under a tunnel; `preserveSplit` is a reconnect. Every step is tried, and the
        answer says whether all of them went well. */
    method StopTunnel(preserveSplit: bool, ghost servers: seq<Address>) returns (ok: bool)
      modifies this, kernel
      ensures View() == if preserveSplit then old(View()) else Book(None, [])
      ensures kernel.net == NetHelper.Down(if !preserveSplit && old(split).Some? && old(split).value.routed
                                           then Unrouted(old(kernel.net), kernel.net.splitChains) else old(kernel.net))
      ensures NoneFailed(kernel.fails, old(kernel.asked), kernel.asked) <==> ok
      ensures ok ==> !dnsActive
    {
      hide NetHelper.Down, NetHelper.AntiLoop, Unrouted, SplitOnly;
      ok := true;
      if !preserveSplit {
        ok := RemoveSplit();
      }
      DownKeepsChains(kernel.net);
      var unguarded := RemoveDns();
      NetHelper.RouteDown(kernel, servers);
      var terminated := Step();
      ok := ok && unguarded && terminated;
    }

    /** The helper's routing, then the split, then the DNS guard. A failure stops there; `setback` says where. */
    method ActivateNetwork(physical: Option<Path>, path6: Option<Path>, servers: seq<Address>, apps: seq<string>)
      returns (ok: bool, ghost setback: Setback)
      requires physical.Some? ==> physical.value.Physical?
      requires path6.Some? ==> path6.value.Physical?
      modifies this, kernel
      ensures ok ==> physical.Some? && View() == Activated(old(View()), apps) && dnsActive
      ensures ok ==> SplitOnly(NetHelper.Up(old(kernel.net), physical.value, path6, servers), kernel.net)
      ensures ok && split.Some? ==> SplitRouted(kernel.net, physical.value)
      ensures !ok ==> Possible(old(View()), apps, setback) && View() == Abandoned(old(View()), apps, setback)
      ensures !ok && setback != RoutingFailed ==>
                physical.Some?
                && SplitOnly(NetHelper.Up(old(kernel.net), physical.value, path6, servers), kernel.net)
      ensures !ok && setback == RoutingFailed && NetHelper.Clean(old(kernel.net), servers) ==>
                var failed := kernel.asked - 1 - old(kernel.asked);
                kernel.net == old(kernel.net) <==>
                physical.None? || (NetHelper.LeftPins4(failed, path6, servers) == 0
                                   && NetHelper.LeftPins6(failed, path6, servers) == 0)
      ensures !ok && (setback == GuardRefused) && split.Some? ==> SplitRouted(kernel.net, physical.value)
    {
      hide NetHelper.Up, NetHelper.Clean, NetHelper.LeftPins4, NetHelper.LeftPins6, NetHelper.Undoes,
           NetHelper.Commands;
      ghost var laid4, laid6;
      setback := RoutingFailed;
      ok, laid4, laid6 := NetHelper.RouteUp(kernel, physical, path6, servers);
      if !ok {
        return;
      }
      ghost var up := kernel.net;
      var splitChanged := splitApps != apps;
      if split.Some? && (apps == [] || splitChanged) {
        ok := RemoveSplit();
        if !ok {
          return false, SplitStuck;
        }
      }
      ghost var middle := kernel.net;
      if apps != [] && split.None? {
        ok := ApplySplit(physical, apps);
        SplitOnlyTransitive(up, middle, kernel.net);
        if !ok {
          return false, SplitRefused;
        }
      } else if split.Some? {
        ok := InstallRouting(kernel, physical.value);
        if !ok {
          return false, RoutesLost;
        }
        split := Some(split.value.(routed := true));
      }
      dnsActive := true;
      ok := Step();
      setback := GuardRefused;
    }
  }

  lemma DownKeepsChains(n: Net)
    ensures NetHelper.Down(n).splitChains == n.splitChains
  {
  }

  // ---- The list that runs ----

  /** The book is right: the live split runs the list the daemon believes it runs. */
  predicate Synced(b: Book) {
    b.split.Some? ==> b.split.value.running == b.apps && b.apps != []
  }

  /** After every successful activation a split is live exactly when one was asked for, and it runs the
      requested list exactly when the book was right about a split it kept. */
  lemma ActivationRunsTheRequest(b: Book, apps: seq<string>)
    ensures var next := Activated(b, apps);
            && (next.split.Some? <==> apps != [])
            && (next.split.Some? ==> next.apps == apps)
            && (next.split.Some? ==>
                  (next.split.value.running == apps <==>
                   !(b.split.Some? && b.apps == apps && b.split.value.running != b.apps)))
            && (Synced(b) ==> Synced(next))
  {
  }

  /** What a live edit does to the book of a live split. */
  function AfterEdit(b: Book, apps: seq<string>, edit: Edit): Book
    requires b.split.Some?
  {
    Book(Some(PlanUpdated(b.split.value, apps, edit)), if edit == Edit.Edited then apps else b.apps)
  }

  /** Only an edit that fails after its new rules are in makes the book wrong. */
  lemma OnlyAHalfDoneEditUnsyncs(b: Book, apps: seq<string>, edit: Edit)
    requires Synced(b) && b.split.Some? && apps != []
    ensures Synced(AfterEdit(b, apps, edit)) <==> !((edit == WatcherLost || edit == ProcessesLost) && apps != b.apps)
  {
  }

  /** The gap is real: an edit that fails while moving processes, then a reconnect with the old list,
      leaves a split that is live, watched and routed running the list of the failed edit. */
  lemma KeptSplitRunsAnotherList()
    ensures var before := Book(Some(Live(["a"], true, true)), ["a"]);
            var after := Activated(AfterEdit(before, ["b"], ProcessesLost), ["a"]);
            && Synced(before)
            && after.split == Some(Live(["b"], true, true))
            && after.apps == ["a"]
  {
  }

  datatype Op =
    | Activate(apps: seq<string>)
    | FailToActivate(apps: seq<string>, setback: Setback)
    | EditLive(apps: seq<string>, edit: Edit)
    | StopTunnelOp(preserveSplit: bool)

  function Exec(b: Book, op: Op): Book {
    match op
    case Activate(apps) => Activated(b, apps)
    case FailToActivate(apps, setback) => Abandoned(b, apps, setback)
    case EditLive(apps, edit) =>
      if apps == [] then Book(None, [])
      else if b.split.Some? then AfterEdit(b, apps, edit)
      else if edit == Edited then Book(Some(Live(apps, true, true)), apps)
      else b
    case StopTunnelOp(preserveSplit) => if preserveSplit then b else Book(None, [])
  }

  function Run(b: Book, ops: seq<Op>): Book
    decreases |ops|
  {
    if ops == [] then b else Run(Exec(b, ops[0]), ops[1..])
  }

  predicate HalfDone(b: Book, op: Op) {
    op.EditLive? && op.apps != [] && b.split.Some? && op.apps != b.apps
      && (op.edit == WatcherLost || op.edit == ProcessesLost)
  }

  predicate NeverHalfDone(b: Book, ops: seq<Op>)
    decreases |ops|
  {
    ops == [] || (!HalfDone(b, ops[0]) && NeverHalfDone(Exec(b, ops[0]), ops[1..]))
  }

  /** The book is right before the first operation and after each one. */
  predicate SyncedThroughout(b: Book, ops: seq<Op>)
    decreases |ops|
  {
    Synced(b) && (ops != [] ==> SyncedThroughout(Exec(b, ops[0]), ops[1..]))
  }

  /** One operation, failed activations included. */
  lemma OpStaysSynced(b: Book, op: Op)
    requires Synced(b)
    ensures Synced(Exec(b, op)) <==> !HalfDone(b, op)
  {
    if op.Activate? || op.FailToActivate? {
      ActivationRunsTheRequest(b, op.apps);
    } else if op.EditLive? && b.split.Some? && op.apps != [] {
      OnlyAHalfDoneEditUnsyncs(b, op.apps, op.edit);
    }
  }

  /** Through every run of activations that succeed or fail anywhere, edits, stops and reconnects, the live split
      runs the list the daemon believes it runs, at every boundary, exactly when no edit was half done. */
  lemma {:induction false} RunsStaySynced(b: Book, ops: seq<Op>)
    requires Synced(b)
    ensures SyncedThroughout(b, ops) <==> NeverHalfDone(b, ops)
    decreases |ops|
  {
    if ops != [] {
      OpStaysSynced(b, ops[0]);
      if !HalfDone(b, ops[0]) {
        RunsStaySynced(Exec(b, ops[0]), ops[1..]);
      }
    }
  }

  /** So a run without one that ends in an activation runs the list that activation asked for. */
  lemma {:induction false} LastActivationRuns(b: Book, ops: seq<Op>)
    requires Synced(b) && NeverHalfDone(b, ops)
    requires ops != [] && ops[|ops| - 1].Activate?
    ensures var apps, end := ops[|ops| - 1].apps, Run(b, ops);
            (end.split.Some? <==> apps != [])
              && (end.split.Some? ==> end.split.value.running == apps && end.apps == apps)
    decreases |ops|
  {
    OpStaysSynced(b, ops[0]);
    if |ops| == 1 {
      ActivationRunsTheRequest(b, ops[0].apps);
      assert Run(b, ops) == Exec(b, ops[0]);
    } else {
      LastActivationRuns(Exec(b, ops[0]), ops[1..]);
    }
  }

  // ---- Beside the helper ----

  /** The number of rules of a mark. */
  function MarkCount(rules: multiset<MarkRule>, mark: nat): nat {
    rules[MarkRule(mark, PhysTable)] + rules[MarkRule(mark, DnsTable)] + rules[MarkRule(mark, SplitTable)]
  }

  /** Route-down takes every rule of a mark that has at most four, the split's among them. */
  lemma {:induction false} MarkIsGone(rules: multiset<MarkRule>, mark: nat, n: nat)
    requires MarkCount(rules, mark) <= n
    ensures !NetHelper.HasMark(NetHelper.WithoutMarkTimes(rules, mark, n), mark)
    decreases n
  {
    CountedMark(rules, mark);
    if n > 0 && NetHelper.HasMark(rules, mark) {
      hide NetHelper.HasMark, NetHelper.WithoutMark, MarkCount;
      MarkIsGone(NetHelper.WithoutMark(rules, mark), mark, n - 1);
    }
  }

  lemma CountedMark(rules: multiset<MarkRule>, mark: nat)
    ensures NetHelper.HasMark(rules, mark) <==> MarkCount(rules, mark) > 0
    ensures NetHelper.HasMark(rules, mark) ==>
              MarkCount(NetHelper.WithoutMark(rules, mark), mark) == MarkCount(rules, mark) - 1
  {
  }

  lemma RouteDownTakesTheSplitRule(n: Net)
    requires MarkCount(n.rules4, BYPASS_MARK) <= 4
    ensures SPLIT_RULE !in NetHelper.Down(n).rules4
    ensures NetHelper.Down(n).split4 == n.split4 && NetHelper.Down(n).splitChains == n.splitChains
  {
    var rules := NetHelper.WithoutMarkTimes(n.rules4 - multiset{MarkRule(DNS_MARK, DnsTable)}, XRAY_DIAL_MARK, 4);
    OtherMarkStays(n.rules4 - multiset{MarkRule(DNS_MARK, DnsTable)}, XRAY_DIAL_MARK, BYPASS_MARK, 4);
    MarkIsGone(rules, BYPASS_MARK, 4);
  }

  lemma {:induction false} OtherMarkStays(rules: multiset<MarkRule>, mark: nat, other: nat, n: nat)
    requires mark != other
    ensures MarkCount(NetHelper.WithoutMarkTimes(rules, mark, n), other) == MarkCount(rules, other)
    decreases n
  {
    if n > 0 && NetHelper.HasMark(rules, mark) {
      var less := NetHelper.WithoutMark(rules, mark);
      OtherRulesStay(rules, mark, MarkRule(other, PhysTable));
      OtherRulesStay(rules, mark, MarkRule(other, DnsTable));
      OtherRulesStay(rules, mark, MarkRule(other, SplitTable));
      OtherMarkStays(less, mark, other, n - 1);
      hide NetHelper.HasMark, NetHelper.WithoutMark;
    }
  }

  lemma OtherRulesStay(rules: multiset<MarkRule>, mark: nat, rule: MarkRule)
    requires rule.mark != mark
    ensures NetHelper.WithoutMark(rules, mark)[rule] == rules[rule]
  {
  }

  /** Whatever the split does, table 100, its default route and the rule of Xray's own dials stay. */
  lemma SplitLeavesTheHelperAlone(n: Net, path: Path, path6: Option<Path>, servers: seq<Address>, p: Net)
    requires SplitOnly(NetHelper.Up(n, path, path6, servers), p)
    ensures Everything in p.phys4 && p.phys4[Everything] == path
    ensures MarkRule(XRAY_DIAL_MARK, PhysTable) in p.rules4
    ensures p.main4 == NetHelper.Up(n, path, path6, servers).main4
  {
    var up := NetHelper.Up(n, path, path6, servers);
    ThrowsKeepDefault(n.phys4[Everything := path], NetHelper.LOCAL_THROWS, |NetHelper.LOCAL_THROWS|);
    hide NetHelper.Throws, NetHelper.Pinned, NetHelper.Family;
    assert up.phys4 == NetHelper.Throws(n.phys4[Everything := path], NetHelper.LOCAL_THROWS, |NetHelper.LOCAL_THROWS|);
    assert MarkRule(XRAY_DIAL_MARK, PhysTable) in up.rules4;
  }

  lemma {:induction false} ThrowsKeepDefault(table: Table, names: seq<string>, n: nat)
    requires n <= |names| && Everything in table
    ensures Everything in NetHelper.Throws(table, names, n)
    ensures NetHelper.Throws(table, names, n)[Everything] == table[Everything]
  {
    if n > 0 {
      ThrowsKeepDefault(table, names, n - 1);
    }
  }
}
