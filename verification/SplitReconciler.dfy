/**
 One pass of the per-app split over the process table: applications the plan names join the bypass
 cgroup, and applications it no longer names leave it with everything below them.
 */
module SplitReconciler {
  import opened Basics
  import opened ProcessTree

  const MAX_OWNED_PIDS: nat := 8192

  datatype AppSelector = ExactPath(path: string) | ProcessName(name: string)

  /** A process table that does not change. `named` is a rule matching a process by name, path or
      arguments; `scoped` is a rule matching the sandbox scope the process was started in, which
      moving the process erases. `pinnedIn` and `pinnedOut` are the moves the kernel refuses. */
  datatype Host = Host(
    listing: seq<Pid>,
    owner: set<Pid>,
    readable: set<Pid>,
    parent: map<Pid, Pid>,
    named: (AppSelector, Pid) -> bool,
    scoped: (AppSelector, Pid) -> bool,
    pinnedOut: set<Pid>,
    pinnedIn: set<Pid>)

  /** The members of the bypass cgroup, the processes no longer in their own scope, and the rule that
      moved each process the split took in. */
  datatype Split = Split(members: set<Pid>, moved: set<Pid>, owned: map<Pid, AppSelector>)

  // ---- The process tree as read from /proc ----

  function TreeUpTo(host: Host, n: nat): Tree
    requires n <= |host.listing|
  {
    if n == 0 then map[]
    else
      var tree := TreeUpTo(host, n - 1);
      var pid := host.listing[n - 1];
      if pid in host.owner && pid in host.parent then
        var parent := host.parent[pid];
        tree[parent := (if parent in tree then tree[parent] else []) + [pid]]
      else tree
  }

  function TreeOf(host: Host): Tree {
    TreeUpTo(host, |host.listing|)
  }

  lemma {:induction false} TreeUpToIsParentage(host: Host, n: nat, parent: Pid, child: Pid)
    requires n <= |host.listing|
    ensures IsChild(TreeUpTo(host, n), parent, child) <==>
            child in host.listing[..n] && child in host.owner && child in host.parent && host.parent[child] == parent
  {
    if n == 0 {
    } else {
      TreeUpToIsParentage(host, n - 1, parent, child);
      assert host.listing[..n] == host.listing[..n - 1] + [host.listing[n - 1]];
    }
  }

  method ReadProcessTree(host: Host) returns (tree: Tree)
    ensures tree == TreeOf(host)
  {
    tree := map[];
    for i := 0 to |host.listing|
      invariant tree == TreeUpTo(host, i)
    {
      var pid := host.listing[i];
      if pid in host.owner && pid in host.parent {
        var parent := host.parent[pid];
        tree := tree[parent := (if parent in tree then tree[parent] else []) + [pid]];
      }
    }
  }

  // ---- What a pass does ----

  predicate Wants(host: Host, rule: AppSelector, moved: set<Pid>, pid: Pid) {
    host.named(rule, pid) || (pid !in moved && host.scoped(rule, pid))
  }

  predicate Claimed(host: Host, plan: seq<AppSelector>, moved: set<Pid>, pid: Pid) {
    exists i :: 0 <= i < |plan| && Wants(host, plan[i], moved, pid)
  }

  predicate Named(host: Host, plan: seq<AppSelector>, pid: Pid) {
    exists i :: 0 <= i < |plan| && host.named(plan[i], pid)
  }

  /** The first rule of the plan that wants the process. */
  predicate Decides(host: Host, plan: seq<AppSelector>, moved: set<Pid>, pid: Pid, rule: AppSelector) {
    exists i :: 0 <= i < |plan| && plan[i] == rule && Wants(host, plan[i], moved, pid)
                && forall j :: 0 <= j < i ==> !Wants(host, plan[j], moved, pid)
  }

  /** By name, path or arguments alone: as if it had been moved. */
  predicate DecidesByName(host: Host, plan: seq<AppSelector>, pid: Pid, rule: AppSelector) {
    Decides(host, plan, {pid}, pid, rule)
  }

  predicate Joins(host: Host, plan: seq<AppSelector>, s: Split, pid: Pid) {
    pid in host.owner && pid !in s.members && pid in host.readable && Claimed(host, plan, s.moved, pid)
  }

  function Joining(host: Host, plan: seq<AppSelector>, s: Split, n: nat): set<Pid>
    requires n <= |host.listing|
  {
    set pid | pid in host.listing[..n] && Joins(host, plan, s, pid)
  }

  function Joined(host: Host, plan: seq<AppSelector>, s: Split): set<Pid> {
    Joining(host, plan, s, |host.listing|)
  }

  /** The record of rules once every process has been looked at and before any is handed back. */
  ghost predicate Recorded(host: Host, plan: seq<AppSelector>, s: Split, record: map<Pid, AppSelector>) {
    var joined := Joined(host, plan, s);
    var members := s.members + joined;
    && record.Keys <= members
    && (forall pid :: pid in record ==>
          || (pid in s.owned && record[pid] == s.owned[pid])
          || (record[pid] in plan && pid in joined && Decides(host, plan, s.moved, pid, record[pid]))
          || (record[pid] in plan && pid in host.readable && Named(host, plan, pid)
              && DecidesByName(host, plan, pid, record[pid])))
    && (forall pid :: pid in s.owned && pid in s.members ==> pid in record && record[pid] == s.owned[pid])
    && (forall pid :: pid in members && pid in host.readable && Named(host, plan, pid) ==>
          pid in record || |record| >= MAX_OWNED_PIDS)
    && (|s.owned| <= MAX_OWNED_PIDS ==> |record| <= MAX_OWNED_PIDS)
    && (s.owned.Keys <= s.members && |s.owned| >= MAX_OWNED_PIDS ==> record == s.owned)
  }

  ghost predicate Below(host: Host, plan: seq<AppSelector>, record: map<Pid, AppSelector>, pid: Pid) {
    exists root :: root in record && record[root] !in plan && Reaches(TreeOf(host), root, pid)
  }

  /** `next` is what one successful pass of `plan` makes of `s`, going through `record`. */
  ghost predicate Pass(host: Host, plan: seq<AppSelector>, s: Split, record: map<Pid, AppSelector>, next: Split) {
    var joined := Joined(host, plan, s);
    && Recorded(host, plan, s, record)
    && (forall pid :: pid in next.members <==>
          pid in s.members + joined && !(Below(host, plan, record, pid) && pid in host.owner && pid !in host.pinnedIn))
    && (forall pid :: pid in next.moved <==>
          pid in s.moved + joined
          || (pid in s.members + joined && Below(host, plan, record, pid) && pid in host.owner
              && pid !in host.pinnedIn))
    && (forall pid :: pid in next.owned <==> pid in record && !Below(host, plan, record, pid))
    && (forall pid :: pid in next.owned ==> next.owned[pid] == record[pid])
  }

  function Noted(owned: map<Pid, AppSelector>, pid: Pid, rule: AppSelector): map<Pid, AppSelector> {
    if |owned| < MAX_OWNED_PIDS then owned[pid := rule] else owned
  }

  /** What the first loop may have made of the rule table. */
  ghost predicate Grown(host: Host, plan: seq<AppSelector>, s: Split, joined: set<Pid>,
                        owned: map<Pid, AppSelector>) {
    && (forall pid :: pid in owned ==>
          || (pid in s.owned && owned[pid] == s.owned[pid])
          || (owned[pid] in plan && pid in joined && Decides(host, plan, s.moved, pid, owned[pid])))
    && (forall pid :: pid in s.owned ==> pid in owned && (pid in s.members ==> owned[pid] == s.owned[pid]))
    && (|s.owned| <= MAX_OWNED_PIDS ==> |owned| <= MAX_OWNED_PIDS)
    && (|s.owned| >= MAX_OWNED_PIDS ==> owned == s.owned)
  }

  lemma GrownNoted(host: Host, plan: seq<AppSelector>, s: Split, joined: set<Pid>, owned: map<Pid, AppSelector>,
                   pid: Pid, rule: AppSelector)
    requires Grown(host, plan, s, joined, owned) && pid in joined && pid !in s.members && rule in plan
    requires Decides(host, plan, s.moved, pid, rule)
    ensures Grown(host, plan, s, joined, Noted(owned, pid, rule))
  {
    hide Decides;
    NotedSize(owned, pid, rule);
    if |s.owned| >= MAX_OWNED_PIDS {
    } else {
      SmallerMap(s.owned, owned);
    }
  }

  lemma NotedSize(owned: map<Pid, AppSelector>, pid: Pid, rule: AppSelector)
    ensures |owned| <= |Noted(owned, pid, rule)|
    ensures |owned| <= MAX_OWNED_PIDS ==> |Noted(owned, pid, rule)| <= MAX_OWNED_PIDS
  {
    SmallerSet(owned.Keys, owned[pid := rule].Keys);
    assert owned[pid := rule].Keys == owned.Keys + {pid};
  }

  lemma JoiningStep(host: Host, plan: seq<AppSelector>, s: Split, i: nat)
    requires i < |host.listing|
    ensures Joining(host, plan, s, i + 1)
            == Joining(host, plan, s, i) + (if Joins(host, plan, s, host.listing[i]) then {host.listing[i]} else {})
    ensures Joining(host, plan, s, i + 1) <= Joined(host, plan, s)
  {
    assert host.listing[..i + 1] == host.listing[..i] + [host.listing[i]];
    assert host.listing[..|host.listing|] == host.listing;
  }

  lemma JoiningOutside(host: Host, plan: seq<AppSelector>, s: Split, i: nat)
    requires i <= |host.listing|
    ensures Joining(host, plan, s, i) !! s.members
    ensures Joining(host, plan, s, i) <= Joined(host, plan, s)
  {
    assert host.listing[..|host.listing|] == host.listing;
  }

  lemma JoiningMember(host: Host, plan: seq<AppSelector>, s: Split, i: nat, pid: Pid)
    requires i <= |host.listing|
    ensures pid in Joining(host, plan, s, i) ==> Joins(host, plan, s, pid)
  {
  }

  lemma ClaimedByScope(host: Host, plan: seq<AppSelector>, moved: set<Pid>, later: set<Pid>, pid: Pid)
    requires pid in moved <==> pid in later
    ensures Claimed(host, plan, moved, pid) <==> Claimed(host, plan, later, pid)
    ensures forall rule :: Decides(host, plan, moved, pid, rule) <==> Decides(host, plan, later, pid, rule)
  {
    assert forall i :: 0 <= i < |plan| ==> (Wants(host, plan[i], moved, pid) <==> Wants(host, plan[i], later, pid));
  }

  /** What the attribution may have made of the rule table, with `open` still to be looked at. */
  ghost predicate AttributedExcept(host: Host, plan: seq<AppSelector>, members: set<Pid>,
                                   before: map<Pid, AppSelector>, owned: map<Pid, AppSelector>, open: set<Pid>) {
    && open <= members
    && owned.Keys <= members
    && open !! owned.Keys
    && (forall pid :: pid in before && pid in members ==> pid in owned && owned[pid] == before[pid])
    && (forall pid :: pid in owned && pid !in before ==>
          && owned[pid] in plan && pid in host.readable && Named(host, plan, pid)
          && DecidesByName(host, plan, pid, owned[pid]))
    && (forall pid :: pid in members && pid !in open && pid in host.readable && Named(host, plan, pid) ==>
          pid in owned || |owned| >= MAX_OWNED_PIDS)
    && (|before| <= MAX_OWNED_PIDS ==> |owned| <= MAX_OWNED_PIDS)
    && (before.Keys <= members && |before| >= MAX_OWNED_PIDS ==> owned == before)
  }

  ghost predicate Attributed(host: Host, plan: seq<AppSelector>, members: set<Pid>,
                             before: map<Pid, AppSelector>, owned: map<Pid, AppSelector>) {
    AttributedExcept(host, plan, members, before, owned, {})
  }

  lemma AttributeOne(host: Host, plan: seq<AppSelector>, members: set<Pid>, before: map<Pid, AppSelector>,
                     owned: map<Pid, AppSelector>, open: set<Pid>, pid: Pid, rule: Option<AppSelector>)
    requires AttributedExcept(host, plan, members, before, owned, open) && pid in open
    requires rule.Some? <==> pid in host.readable && Named(host, plan, pid)
    requires rule.Some? ==> rule.value in plan && DecidesByName(host, plan, pid, rule.value)
    ensures AttributedExcept(host, plan, members, before,
                             if rule.Some? then Noted(owned, pid, rule.value) else owned, open - {pid})
  {
    if rule.Some? {
      NotedSize(owned, pid, rule.value);
      assert pid !in before;
    }
  }

  /** What a pass that a refused move stopped has done: some of the claimed processes joined, with rules of the
      plan on record for them, and nobody was sent away. */
  ghost predicate Interrupted(host: Host, plan: seq<AppSelector>, s: Split, next: Split) {
    && s.members <= next.members <= s.members + Joined(host, plan, s)
    && next.moved == s.moved + (next.members - s.members)
    && Grown(host, plan, s, Joined(host, plan, s), next.owned)
  }

  class Reconciler {
    const host: Host
    var members: set<Pid>
    var moved: set<Pid>
    var owned: map<Pid, AppSelector>

    constructor (host: Host, members: set<Pid>, moved: set<Pid>)
      ensures this.host == host && View() == Split(members, moved, map[])
    {
      this.host := host;
      this.members := members;
      this.moved := moved;
      owned := map[];
    }

    function View(): Split
      reads this
    {
      Split(members, moved, owned)
    }

    /** `Some(rule)` is the first rule of the plan that claims the process. */
    method FindRule(plan: seq<AppSelector>, pid: Pid, scopes: bool) returns (rule: Option<AppSelector>)
      ensures rule.None? <==> if scopes then !Claimed(host, plan, moved, pid) else !Named(host, plan, pid)
      ensures rule.Some? ==> rule.value in plan
      ensures rule.Some? ==> if scopes then Decides(host, plan, moved, pid, rule.value)
                             else DecidesByName(host, plan, pid, rule.value)
    {
      for i := 0 to |plan|
        invariant forall j :: 0 <= j < i ==> !(if scopes then Wants(host, plan[j], moved, pid)
                                               else host.named(plan[j], pid))
      {
        if host.named(plan[i], pid) || (scopes && pid !in moved && host.scoped(plan[i], pid)) {
          return Some(plan[i]);
        }
      }
      rule := None;
    }

    method MoveOut(pid: Pid)
      modifies this
      ensures owned == old(owned)
      ensures members == if pid in host.owner && pid !in host.pinnedIn then old(members) - {pid} else old(members)
      ensures moved == if pid in host.owner && pid !in host.pinnedIn then old(moved) + {pid} else old(moved)
    {
      if pid in host.owner && pid !in host.pinnedIn {
        members := members - {pid};
        moved := moved + {pid};
      }
    }

    /** The table of rules is bounded: a full one takes nothing more. */
    method Record(pid: Pid, rule: AppSelector)
      modifies this`owned
      ensures owned == Noted(old(owned), pid, rule)
    {
      if |owned| < MAX_OWNED_PIDS {
        owned := owned[pid := rule];
      }
    }

    /** One process of the first loop. */
    method Consider(plan: seq<AppSelector>, ghost s: Split, i: nat) returns (ok: bool)
      requires i < |host.listing|
      requires members == s.members + Joining(host, plan, s, i)
      requires moved == s.moved + Joining(host, plan, s, i)
      requires Grown(host, plan, s, Joined(host, plan, s), owned)
      modifies this
      ensures Grown(host, plan, s, Joined(host, plan, s), owned)
      ensures ok ==> members == s.members + Joining(host, plan, s, i + 1)
      ensures ok ==> moved == s.moved + Joining(host, plan, s, i + 1)
      ensures !ok ==> members == old(members) && moved == old(moved)
      ensures !ok ==> host.listing[i] in host.pinnedOut && Joins(host, plan, s, host.listing[i])
    {
      hide Grown, Joined, Claimed, Joining;
      var pid := host.listing[i];
      JoiningStep(host, plan, s, i);
      if pid !in host.owner || pid in members || pid !in host.readable {
        JoiningMember(host, plan, s, i, pid);
        return true;
      }
      ClaimedByScope(host, plan, s.moved, moved, pid);
      var rule := FindRule(plan, pid, true);
      if rule.None? {
        return true;
      }
      if pid in host.pinnedOut {
        return false;
      }
      members := members + {pid};
      moved := moved + {pid};
      GrownNoted(host, plan, s, Joined(host, plan, s), owned, pid, rule.value);
      Record(pid, rule.value);
      ok := true;
    }

    /** The first loop of a pass: every process the plan claims joins. Stops at a move that fails. */
    method TakeIn(plan: seq<AppSelector>) returns (ok: bool)
      modifies this
      ensures ok ==> members == old(members) + Joined(host, plan, old(View()))
      ensures old(members) <= members <= old(members) + Joined(host, plan, old(View()))
      ensures moved == old(moved) + (members - old(members))
      ensures Grown(host, plan, old(View()), Joined(host, plan, old(View())), owned)
      ensures !ok ==> exists pid :: pid in host.pinnedOut && Joins(host, plan, old(View()), pid)
    {
      ghost var s := View();
      for i := 0 to |host.listing|
        invariant members == s.members + Joining(host, plan, s, i)
        invariant moved == s.moved + Joining(host, plan, s, i)
        invariant Grown(host, plan, s, Joined(host, plan, s), owned)
      {
        hide Grown, Joined;
        JoiningOutside(host, plan, s, i);
        ok := Consider(plan, s, i);
        if !ok {
          return;
        }
      }
      JoiningOutside(host, plan, s, |host.listing|);
      ok := true;
    }

    /** Members that left are forgotten, and members no rule is recorded for get the one that names them. */
    method Attribute(plan: seq<AppSelector>)
      modifies this`owned
      ensures Attributed(host, plan, members, old(owned), owned)
    {
      ghost var before := owned;
      owned := map pid | pid in owned && pid in members :: owned[pid];
      SmallerMap(owned, before);
      assert before.Keys <= members ==> owned == before;
      var unattributed := members - owned.Keys;
      assert AttributedExcept(host, plan, members, before, owned, unattributed);
      while unattributed != {}
        invariant AttributedExcept(host, plan, members, before, owned, unattributed)
        decreases unattributed
      {
        hide AttributedExcept;
        var pid :| pid in unattributed;
        var rule := None;
        if pid in host.readable {
          rule := FindRule(plan, pid, false);
        }
        AttributeOne(host, plan, members, before, owned, unattributed, pid, rule);
        unattributed := unattributed - {pid};
        if rule.Some? {
          Record(pid, rule.value);
        }
      }
    }

    /** Processes whose recorded rule left the plan are handed back, with everything below them. */
    method HandBack(plan: seq<AppSelector>)
      requires owned.Keys <= members
      modifies this
      ensures forall pid :: pid in members <==>
                pid in old(members)
                && !(Below(host, plan, old(owned), pid) && pid in host.owner && pid !in host.pinnedIn)
      ensures forall pid :: pid in moved <==>
                pid in old(moved)
                || (pid in old(members) && Below(host, plan, old(owned), pid) && pid in host.owner
                    && pid !in host.pinnedIn)
      ensures forall pid :: pid in owned <==> pid in old(owned) && !Below(host, plan, old(owned), pid)
      ensures forall pid :: pid in owned ==> owned[pid] == old(owned)[pid]
    {
      ghost var s := View();
      var snapshot := members;
      var stale := set pid | pid in owned && owned[pid] !in plan;
      var tree := ReadProcessTree(host);
      ghost var done: set<Pid> := {};
      while stale != {}
        invariant done + stale == set pid | pid in s.owned && s.owned[pid] !in plan
        invariant forall pid :: pid in members <==>
                  pid in s.members && !(BelowAny(tree, done, pid) && pid in host.owner && pid !in host.pinnedIn)
        invariant forall pid :: pid in moved <==>
                    pid in s.moved || (pid in s.members && BelowAny(tree, done, pid) && pid in host.owner
                                       && pid !in host.pinnedIn)
        invariant forall pid :: pid in owned <==> pid in s.owned && !BelowAny(tree, done, pid)
        invariant forall pid :: pid in owned ==> owned[pid] == s.owned[pid]
        decreases stale
      {
        var root :| root in stale;
        stale := stale - {root};
        var below := Subtree(tree, root);
        HandBackAll(below, snapshot);
        done := done + {root};
        assert forall pid :: BelowAny(tree, done, pid) <==> BelowAny(tree, done - {root}, pid) || pid in below;
      }
      forall pid ensures BelowAny(tree, done, pid) <==> Below(host, plan, s.owned, pid) {
      }
    }

    method HandBackAll(pids: seq<Pid>, snapshot: set<Pid>)
      modifies this
      ensures forall pid :: pid in members <==>
                pid in old(members) && !(pid in pids && pid in snapshot && pid in host.owner && pid !in host.pinnedIn)
      ensures forall pid :: pid in moved <==>
                pid in old(moved) || (pid in pids && pid in snapshot && pid in host.owner && pid !in host.pinnedIn)
      ensures forall pid :: pid in owned <==> pid in old(owned) && pid !in pids
      ensures forall pid :: pid in owned ==> owned[pid] == old(owned)[pid]
    {
      for i := 0 to |pids|
        invariant forall pid :: pid in members <==>
                    pid in old(members) && !(pid in pids[..i] && pid in snapshot && pid in host.owner
                                             && pid !in host.pinnedIn)
        invariant forall pid :: pid in moved <==>
                    pid in old(moved) || (pid in pids[..i] && pid in snapshot && pid in host.owner
                                          && pid !in host.pinnedIn)
        invariant forall pid :: pid in owned <==> pid in old(owned) && pid !in pids[..i]
        invariant forall pid :: pid in owned ==> owned[pid] == old(owned)[pid]
      {
        assert pids[..i + 1] == pids[..i] + [pids[i]];
        if pids[i] in snapshot {
          MoveOut(pids[i]);
        }
        owned := owned - {pids[i]};
      }
      assert pids[..|pids|] == pids;
    }

    /** One pass. `record` is the rule table between its two halves. */
    method Reconcile(plan: seq<AppSelector>) returns (ok: bool, ghost record: map<Pid, AppSelector>)
      modifies this
      ensures ok ==> Pass(host, plan, old(View()), record, View())
      ensures !ok ==> Interrupted(host, plan, old(View()), View())
      ensures !ok ==> exists pid :: pid in host.pinnedOut && Joins(host, plan, old(View()), pid)
    {
      hide Grown, Attributed, Recorded, Joined, Joins, Below;
      ghost var s := View();
      record := map[];
      ok := TakeIn(plan);
      if !ok {
        return;
      }
      ghost var grown := owned;
      Attribute(plan);
      record := owned;
      JoinedAreNew(host, plan, s);
      assert members - s.members == Joined(host, plan, s);
      RecordedFrom(host, plan, s, grown, record);
      RecordedAreMembers(host, plan, s, record);
      HandBack(plan);
    }
  }

  lemma JoinedAreNew(host: Host, plan: seq<AppSelector>, s: Split)
    ensures Joined(host, plan, s) !! s.members
  {
  }

  /** The two halves of the first part of a pass give the record. */
  lemma RecordedFrom(host: Host, plan: seq<AppSelector>, s: Split, grown: map<Pid, AppSelector>, record: map<Pid,
                     AppSelector>)
    requires Grown(host, plan, s, Joined(host, plan, s), grown)
    requires Attributed(host, plan, s.members + Joined(host, plan, s), grown, record)
    ensures Recorded(host, plan, s, record)
  {
    hide Joined, Named;
  }

  lemma RecordedAreMembers(host: Host, plan: seq<AppSelector>, s: Split, record: map<Pid, AppSelector>)
    requires Recorded(host, plan, s, record)
    ensures record.Keys <= s.members + Joined(host, plan, s)
  {
    hide Joined, Named;
  }

  // ---- What every pass keeps, and where passes lead ----

  ghost predicate Consistent(plan: seq<AppSelector>, s: Split) {
    && s.owned.Keys <= s.members
    && (forall pid :: pid in s.owned ==> s.owned[pid] in plan)
    && |s.owned| <= MAX_OWNED_PIDS
  }

  /** A rule on record that the plan no longer has, at the process or above it. */
  ghost predicate StaleAbove(host: Host, plan: seq<AppSelector>, owned: map<Pid, AppSelector>, pid: Pid) {
    exists root :: root in owned && owned[root] !in plan && Reaches(TreeOf(host), root, pid)
  }

  /** Every pass ends with a bounded record of members under rules of the plan, and a process it sends
      away, whether a member before or one that joined in the same pass, is one, or sits below one, whose
      recorded rule is no longer in the plan. */
  lemma PassIsSound(host: Host, plan: seq<AppSelector>, s: Split, record: map<Pid, AppSelector>, next: Split)
    requires Pass(host, plan, s, record, next) && |s.owned| <= MAX_OWNED_PIDS
    ensures Consistent(plan, next)
    ensures forall pid :: pid in s.members + Joined(host, plan, s) && pid !in next.members ==>
              StaleAbove(host, plan, s.owned, pid)
    ensures forall pid :: pid in next.members && pid !in s.members ==> Joins(host, plan, s, pid)
  {
    PassKeepsRecord(host, plan, s, record, next);
    PassSendsAwayStale(host, plan, s, record, next);
    hide Recorded, Below, Joins, StaleAbove;
    forall pid | pid in next.members && pid !in s.members
      ensures Joins(host, plan, s, pid)
    {
      JoiningMember(host, plan, s, |host.listing|, pid);
    }
  }

  lemma PassKeepsRecord(host: Host, plan: seq<AppSelector>, s: Split, record: map<Pid, AppSelector>, next: Split)
    requires Pass(host, plan, s, record, next) && |s.owned| <= MAX_OWNED_PIDS
    ensures Consistent(plan, next)
  {
    SmallerMap(next.owned, record);
    hide Joined;
    forall pid | pid in next.owned
      ensures pid in next.members && next.owned[pid] in plan
    {
      ReachesSelf(TreeOf(host), pid);
      assert record[pid] !in plan ==> Below(host, plan, record, pid);
    }
  }

  lemma PassSendsAwayStale(host: Host, plan: seq<AppSelector>, s: Split, record: map<Pid, AppSelector>, next: Split)
    requires Pass(host, plan, s, record, next)
    ensures forall pid :: pid in s.members + Joined(host, plan, s) && pid !in next.members ==>
              StaleAbove(host, plan, s.owned, pid)
  {
    hide Joined, StaleAbove, Below, Recorded;
    forall pid | pid in s.members + Joined(host, plan, s) && pid !in next.members
      ensures StaleAbove(host, plan, s.owned, pid)
    {
      StaleIsOld(host, plan, s, record, pid);
    }
  }

  /** A rule that left the plan was on record before the pass. */
  lemma StaleIsOld(host: Host, plan: seq<AppSelector>, s: Split, record: map<Pid, AppSelector>, pid: Pid)
    requires Recorded(host, plan, s, record) && Below(host, plan, record, pid)
    ensures StaleAbove(host, plan, s.owned, pid)
  {
    hide Joined, Named;
    var root :| root in record && record[root] !in plan && Reaches(TreeOf(host), root, pid);
    assert root in s.owned && s.owned[root] == record[root];
  }

  /** With no stale rule on record a pass only adds. */
  lemma QuietPass(host: Host, plan: seq<AppSelector>, s: Split, record: map<Pid, AppSelector>, next: Split)
    requires Pass(host, plan, s, record, next) && Consistent(plan, s)
    ensures next == Split(s.members + Joined(host, plan, s), s.moved + Joined(host, plan, s), record)
  {
    assert forall pid :: !Below(host, plan, record, pid);
    assert next.members == s.members + Joined(host, plan, s);
    assert next.moved == s.moved + Joined(host, plan, s);
    assert next.owned == record;
  }

  /** After a pass that only added, no process is left to join. */
  lemma NobodyLeftToJoin(host: Host, plan: seq<AppSelector>, s: Split, next: Split)
    requires next.members == s.members + Joined(host, plan, s) && next.moved == s.moved + Joined(host, plan, s)
    ensures Joined(host, plan, next) == {}
  {
    assert host.listing[..|host.listing|] == host.listing;
    forall pid | pid in host.listing && pid !in Joined(host, plan, s)
      ensures !Joins(host, plan, next, pid)
    {
      ClaimedByScope(host, plan, s.moved, next.moved, pid);
    }
  }

  lemma RecordSettles(host: Host, plan: seq<AppSelector>, s: Split, record: map<Pid, AppSelector>,
                      next: Split, again: map<Pid, AppSelector>)
    requires Consistent(plan, s) && Recorded(host, plan, s, record)
    requires next == Split(s.members + Joined(host, plan, s), s.moved + Joined(host, plan, s), record)
    requires Recorded(host, plan, next, again) && Joined(host, plan, next) == {}
    ensures again == record
  {
    hide Joined, Named;
    assert next.members + {} == next.members;
    if |record| < MAX_OWNED_PIDS {
      forall pid | pid in again
        ensures pid in record
      {
      }
      assert again.Keys == record.Keys;
    }
  }

  /** With a fixed process table the second pass reaches a fixpoint: a third changes nothing, and every
      process of the user that a rule names is a member. */
  lemma TwoPassesConverge(host: Host, plan: seq<AppSelector>, s0: Split, s1: Split, s2: Split, s3: Split,
                          r1: map<Pid, AppSelector>, r2: map<Pid, AppSelector>, r3: map<Pid, AppSelector>)
    requires |s0.owned| <= MAX_OWNED_PIDS
    requires Pass(host, plan, s0, r1, s1) && Pass(host, plan, s1, r2, s2) && Pass(host, plan, s2, r3, s3)
    ensures s3 == s2
    ensures AllNamedAreMembers(host, plan, s2)
  {
    hide Pass, Recorded;
    PassIsSound(host, plan, s0, r1, s1);
    PassIsSound(host, plan, s1, r2, s2);
    QuietPass(host, plan, s1, r2, s2);
    NobodyLeftToJoin(host, plan, s1, s2);
    QuietPass(host, plan, s2, r3, s3);
    assert Recorded(host, plan, s1, r2) && Recorded(host, plan, s2, r3) by {
      PassRecords(host, plan, s1, r2, s2);
      PassRecords(host, plan, s2, r3, s3);
    }
    RecordSettles(host, plan, s1, r2, s2, r3);
    NamedAreMembers(host, plan, s2);
  }

  /** Every readable process of the user that a rule names is a member. */
  ghost predicate AllNamedAreMembers(host: Host, plan: seq<AppSelector>, s: Split) {
    forall pid :: pid in host.listing && pid in host.owner && pid in host.readable && Named(host, plan, pid)
      ==> pid in s.members
  }

  lemma NamedAreMembers(host: Host, plan: seq<AppSelector>, s: Split)
    requires Joined(host, plan, s) == {}
    ensures AllNamedAreMembers(host, plan, s)
  {
    forall pid | pid in host.listing && pid in host.owner && pid in host.readable && Named(host, plan, pid)
      ensures pid in s.members
    {
      var i :| 0 <= i < |plan| && host.named(plan[i], pid);
      assert Wants(host, plan[i], s.moved, pid);
      assert host.listing[..|host.listing|] == host.listing;
      assert pid !in s.members ==> pid in Joined(host, plan, s);
    }
  }

  lemma PassRecords(host: Host, plan: seq<AppSelector>, s: Split, record: map<Pid, AppSelector>, next: Split)
    requires Pass(host, plan, s, record, next)
    ensures Recorded(host, plan, s, record)
  {
  }

  /** The same through the mutable reconciler, when the kernel refuses no move. */
  method ReconcileTwice(reconciler: Reconciler, plan: seq<AppSelector>) returns (ok: bool)
    requires reconciler.host.pinnedOut == {} && |reconciler.owned| <= MAX_OWNED_PIDS
    modifies reconciler
    ensures ok && Consistent(plan, reconciler.View())
    ensures Joined(reconciler.host, plan, reconciler.View()) == {}
    ensures forall r3, s3 :: Pass(reconciler.host, plan, reconciler.View(), r3, s3) ==> s3 == reconciler.View()
    ensures AllNamedAreMembers(reconciler.host, plan, reconciler.View())
  {
    hide Pass, Joined, Joins, StaleAbove, Consistent;
    ghost var s0 := reconciler.View();
    ghost var r1, r2;
    ok, r1 := reconciler.Reconcile(plan);
    ghost var s1 := reconciler.View();
    PassIsSound(reconciler.host, plan, s0, r1, s1);
    ConsistentIsBounded(plan, s1);
    ok, r2 := reconciler.Reconcile(plan);
    ghost var s2 := reconciler.View();
    PassIsSound(reconciler.host, plan, s1, r2, s2);
    QuietPass(reconciler.host, plan, s1, r2, s2);
    NobodyLeftToJoin(reconciler.host, plan, s1, s2);
    NamedAreMembers(reconciler.host, plan, s2);
    forall r3, s3 | Pass(reconciler.host, plan, s2, r3, s3)
      ensures s3 == s2
    {
      TwoPassesConverge(reconciler.host, plan, s0, s1, s2, s3, r1, r2, r3);
    }
  }

  lemma ConsistentIsBounded(plan: seq<AppSelector>, s: Split)
    requires Consistent(plan, s)
    ensures |s.owned| <= MAX_OWNED_PIDS
  {
  }

  ghost predicate BelowAny(tree: Tree, roots: set<Pid>, pid: Pid) {
    exists root :: root in roots && Reaches(tree, root, pid)
  }

  lemma SmallerMap<K, V>(part: map<K, V>, whole: map<K, V>)
    requires part.Keys <= whole.Keys
    ensures |part| <= |whole|
  {
    SmallerSet(part.Keys, whole.Keys);
  }

  lemma SmallerSet<K>(part: set<K>, whole: set<K>)
    requires part <= whole
    ensures |part| <= |whole|
  {
    assert whole == part + (whole - part);
  }
}
