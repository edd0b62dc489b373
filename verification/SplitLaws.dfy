/** Who is in the split after a pass, under which rule, and when a live split is watched. */
module SplitLaws {
  import opened Basics
  import opened ProcessTree
  import opened SplitReconciler
  import B = SplitBackend

  // ---- One pass, process by process ----

  /** The user's process that some rule means: by name, or by the sandbox scope it is still in. */
  predicate Meant(host: Host, plan: seq<AppSelector>, s: Split, pid: Pid) {
    && pid in host.listing && pid in host.owner && pid in host.readable
    && exists rule :: rule in plan && (host.named(rule, pid) || (pid !in s.moved && host.scoped(rule, pid)))
  }

  predicate MayLeave(host: Host, pid: Pid) {
    pid in host.owner && pid !in host.pinnedIn
  }

  /** After a pass the members are those of before and those the plan means, without the ones that are, or sit below,
      a process whose recorded rule the plan no longer has and that can be moved out. */
  lemma PassMembers(host: Host, plan: seq<AppSelector>, s: Split, record: map<Pid, AppSelector>, next: Split, pid: Pid)
    requires Pass(host, plan, s, record, next) && s.owned.Keys <= s.members
    ensures pid in next.members <==>
            (pid in s.members || Meant(host, plan, s, pid))
            && !(StaleAbove(host, plan, s.owned, pid) && MayLeave(host, pid))
  {
    hide Pass, Recorded, Joined, Below, StaleAbove, Meant;
    JoinedIsMeant(host, plan, s, pid);
    BelowIsStale(host, plan, s, record, next, pid);
    PassSays(host, plan, s, record, next, pid);
  }

  /** The scope of a process is gone exactly once it was moved in or out. */
  lemma PassMoves(host: Host, plan: seq<AppSelector>, s: Split, record: map<Pid, AppSelector>, next: Split, pid: Pid)
    requires Pass(host, plan, s, record, next) && s.owned.Keys <= s.members
    ensures pid in next.moved <==>
            || pid in s.moved
            || (pid !in s.members && Meant(host, plan, s, pid))
            || (pid in s.members && StaleAbove(host, plan, s.owned, pid) && MayLeave(host, pid))
  {
    hide Pass, Recorded, Joined, Below, StaleAbove, Meant;
    JoinedIsMeant(host, plan, s, pid);
    BelowIsStale(host, plan, s, record, next, pid);
    PassSays(host, plan, s, record, next, pid);
  }

  lemma PassSays(host: Host, plan: seq<AppSelector>, s: Split, record: map<Pid, AppSelector>, next: Split, pid: Pid)
    requires Pass(host, plan, s, record, next)
    ensures pid in next.members <==>
            pid in s.members + Joined(host, plan, s) && !(Below(host, plan, record, pid) && MayLeave(host, pid))
    ensures pid in next.moved <==>
            || pid in s.moved + Joined(host, plan, s)
            || (pid in s.members + Joined(host, plan, s) && Below(host, plan, record, pid) && MayLeave(host, pid))
    ensures pid in next.owned ==> pid in record && next.owned[pid] == record[pid]
  {
    hide Recorded, Joined, Below;
  }

  lemma JoinedIsMeant(host: Host, plan: seq<AppSelector>, s: Split, pid: Pid)
    ensures pid in Joined(host, plan, s) <==> pid !in s.members && Meant(host, plan, s, pid)
  {
    assert host.listing[..|host.listing|] == host.listing;
    ClaimedMeans(host, plan, s.moved, pid);
  }

  lemma ClaimedMeans(host: Host, plan: seq<AppSelector>, moved: set<Pid>, pid: Pid)
    ensures Claimed(host, plan, moved, pid) <==>
            exists rule :: rule in plan && (host.named(rule, pid) || (pid !in moved && host.scoped(rule, pid)))
  {
    if rule :| rule in plan && (host.named(rule, pid) || (pid !in moved && host.scoped(rule, pid))) {
      var i :| 0 <= i < |plan| && plan[i] == rule;
      assert Wants(host, plan[i], moved, pid);
    }
    if Claimed(host, plan, moved, pid) {
      var i :| 0 <= i < |plan| && Wants(host, plan[i], moved, pid);
      assert plan[i] in plan;
    }
  }

  lemma BelowIsStale(host: Host, plan: seq<AppSelector>, s: Split, record: map<Pid, AppSelector>, next: Split, pid: Pid)
    requires Pass(host, plan, s, record, next) && s.owned.Keys <= s.members
    ensures Below(host, plan, record, pid) <==> StaleAbove(host, plan, s.owned, pid)
  {
    hide Pass, Recorded, Joined, Below, StaleAbove;
    PassRecords(host, plan, s, record, next);
    if Below(host, plan, record, pid) {
      StaleIsOld(host, plan, s, record, pid);
    }
    if StaleAbove(host, plan, s.owned, pid) {
      StaleIsKept(host, plan, s, record, pid);
    }
  }

  lemma StaleIsKept(host: Host, plan: seq<AppSelector>, s: Split, record: map<Pid, AppSelector>, pid: Pid)
    requires Recorded(host, plan, s, record) && StaleAbove(host, plan, s.owned, pid) && s.owned.Keys <= s.members
    ensures Below(host, plan, record, pid)
  {
    hide Joined, Named, Decides, DecidesByName;
    var root :| root in s.owned && s.owned[root] !in plan && Reaches(TreeOf(host), root, pid);
    assert root in record && record[root] == s.owned[root];
  }

  /** The rule at place `i` is the first that means the process. */
  predicate FirstFor(host: Host, plan: seq<AppSelector>, pid: Pid, scopes: bool, i: nat) {
    && i < |plan|
    && (host.named(plan[i], pid) || (scopes && host.scoped(plan[i], pid)))
    && forall j :: 0 <= j < i ==> !host.named(plan[j], pid) && !(scopes && host.scoped(plan[j], pid))
  }

  /** The first rule of the plan that means the process, and by its scope only if the process was still in it. */
  ghost predicate RightRule(host: Host, plan: seq<AppSelector>, s: Split, pid: Pid, rule: AppSelector) {
    exists i: nat, scopes: bool :: FirstFor(host, plan, pid, scopes, i) && rule == plan[i]
                        && (scopes ==> pid !in s.members && pid !in s.moved)
  }

  /** A rule a pass leaves on record was there before or is the right one. */
  lemma PassRecordsTheFirst(host: Host, plan: seq<AppSelector>, s: Split, record: map<Pid, AppSelector>, next: Split,
                            pid: Pid)
    requires Pass(host, plan, s, record, next) && pid in next.owned
    ensures (pid in s.owned && next.owned[pid] == s.owned[pid]) || RightRule(host, plan, s, pid, next.owned[pid])
  {
    hide Pass, Recorded, Joined, Below, RightRule;
    PassRecords(host, plan, s, record, next);
    PassSays(host, plan, s, record, next, pid);
    RecordSays(host, plan, s, record, pid);
  }

  lemma RecordSays(host: Host, plan: seq<AppSelector>, s: Split, record: map<Pid, AppSelector>, pid: Pid)
    requires Recorded(host, plan, s, record) && pid in record
    ensures (pid in s.owned && record[pid] == s.owned[pid]) || RightRule(host, plan, s, pid, record[pid])
  {
    hide Joined, Named, Decides, Wants, FirstFor;
    JoinedAreNew(host, plan, s);
    var rule := record[pid];
    if Decides(host, plan, s.moved, pid, rule) && pid in Joined(host, plan, s) {
      var i := FirstAt(host, plan, s.moved, pid, rule);
    } else if Decides(host, plan, {pid}, pid, rule) {
      var i := FirstAt(host, plan, {pid}, pid, rule);
    }
  }

  lemma FirstAt(host: Host, plan: seq<AppSelector>, moved: set<Pid>, pid: Pid, rule: AppSelector) returns (i: nat)
    requires Decides(host, plan, moved, pid, rule)
    ensures FirstFor(host, plan, pid, pid !in moved, i) && plan[i] == rule
  {
    i :| 0 <= i < |plan| && plan[i] == rule && Wants(host, plan[i], moved, pid)
         && forall j :: 0 <= j < i ==> !Wants(host, plan[j], moved, pid);
  }

  // ---- Watching the live split ----

  predicate Watched(b: B.Book) {
    b.split.Some? ==> b.split.value.watching && b.split.value.routed
  }

  /** A live edit that lost the watcher of the split. */
  predicate LosesWatcher(b: B.Book, op: B.Op) {
    op.EditLive? && op.apps != [] && b.split.Some? && op.edit == B.WatcherLost
  }

  predicate NeverLosesWatcher(b: B.Book, ops: seq<B.Op>)
    decreases |ops|
  {
    ops == [] || (!LosesWatcher(b, ops[0]) && NeverLosesWatcher(B.Exec(b, ops[0]), ops[1..]))
  }

  predicate WatchedThroughout(b: B.Book, ops: seq<B.Op>)
    decreases |ops|
  {
    Watched(b) && (ops != [] ==> WatchedThroughout(B.Exec(b, ops[0]), ops[1..]))
  }

  /** Through every run of activations, edits, stops and reconnects the live split is watched and routed at every
      boundary, exactly when no edit lost the watcher. */
  lemma {:induction false} RunsStayWatched(b: B.Book, ops: seq<B.Op>)
    requires Watched(b)
    ensures WatchedThroughout(b, ops) <==> NeverLosesWatcher(b, ops)
    decreases |ops|
  {
    if ops != [] {
      OpStaysWatched(b, ops[0]);
      if !LosesWatcher(b, ops[0]) {
        RunsStayWatched(B.Exec(b, ops[0]), ops[1..]);
      }
    }
  }

  lemma OpStaysWatched(b: B.Book, op: B.Op)
    requires Watched(b)
    ensures Watched(B.Exec(b, op)) <==> !LosesWatcher(b, op)
  {
  }

  /** A split that lost its watcher gets one again by the next edit whose rules go in, or when it is replaced; a
      reconnect that keeps it does not bring the watcher back. */
  lemma WatcherComesBack(b: B.Book, op: B.Op)
    requires b.split.Some? && !b.split.value.watching && B.Exec(b, op).split.Some?
    ensures B.Exec(b, op).split.value.watching <==>
            || (op.EditLive? && op.edit in {B.Edited, B.ProcessesLost})
            || (op.Activate? && op.apps != b.apps)
            || (op.FailToActivate? && op.setback == B.GuardRefused && op.apps != b.apps)
  {
  }

  /** A failed activation loses a live split only if it was to replace or remove it and had begun to; otherwise the
      split runs as before, and a guard refused at the very end leaves the split of the new request. */
  lemma FailureKeepsTheSplit(b: B.Book, apps: seq<string>, setback: B.Setback)
    requires B.Possible(b, apps, setback)
    ensures var next := B.Abandoned(b, apps, setback);
            var swaps := b.split.Some? && (apps == [] || b.apps != apps);
            && (b.split.Some? && !swaps ==>
                  next.split.Some? && next.apps == b.apps
                  && next.split.value.running == b.split.value.running
                  && next.split.value.watching == b.split.value.watching)
            && (swaps && setback == B.RoutingFailed ==> next == b)
            && (swaps && setback in {B.SplitStuck, B.SplitRefused} ==> next == B.Book(None, []))
            && (swaps && setback == B.GuardRefused ==> next.split == if apps == [] then None
                                                                     else Some(B.Live(apps, true, true)))
            && (b.split.None? && setback != B.GuardRefused ==> next == b)
  {
  }
}
