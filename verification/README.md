# Varmlen, verified

Dafny models of the parts of Varmlen where many fallible steps or two separately written components have to
agree, with machine-checked proofs about them. `dafny verify dfyconfig.toml` checks the whole project.

Everything that can fail is nondeterministic: backend calls, `ip` commands and layers of the split take their
outcomes from an arbitrary oracle, so each theorem about a run holds for every failure schedule.

| file | what it models |
|---|---|
| `Lifecycle.dfy`, `Answers.dfy` | the daemon's connection state machine over a backend in which every call may fail; the script each command follows and what it answers |
| `Marks.dfy`, `Kernel.dfy`, `NetHelper.dfy` | routing tables, mark rules and files as data; `route_up` and `route_down` as command sequences that record every intermediate state |
| `PolicyRouting.dfy`, `TunnelRoutes.dfy` | the kernel's route lookup: the rules of a mark in order, the longest prefix of a table; where packets of each family and mark go once the routing is up |
| `Firewall.dfy` | the DNS marking and guard chains and the kill switch, read as first-verdict chains, and what they do together with the routing |
| `AddressRanges.dfy`, `FilterLaws.dfy` | which destinations the kill switch lets through, by address ranges |
| `SplitBackend.dfy` | the daemon's bookkeeping of the live split and its own routing table |
| `ProcessTree.dfy`, `SplitReconciler.dfy` | the worklist closure over processes, and one pass of the split reconciler |
| `SplitLaws.dfy` | who is in the split after a pass and under which rule, and when the live split is watched |
| `RouteRules.dfy`, `PolicyLaws.dfy`, `WrittenRules.dfy` | the compiler from the two split lists to Xray's first-match rules, the decisions it owes in terms of the lists, and the rules as the document holds them |
| `Outbound.dfy`, `ReadBack.dfy` | printing a server as an Xray outbound and reading it back, and what is read back in terms of the server |
| `JsonValues.dfy`, `OutboundJson.dfy`, `XrayConfig.dfy`, `XrayDocuments.dfy` | the JSON documents the client builds, from parsed servers or provider JSON |
| `JsonReadBack.dfy`, `PlanLaws.dfy`, `DocumentLaws.dfy` | a reader of the printed JSON; what becomes of provider JSON key by key and rule by rule; the DNS section, the proxy that stands for a plan, and moved probes |
| `ConfigChecker.dfy`, `ValidationPorts.dfy` | the daemon's own check of those documents, and its rewriting of their ports |
| `CheckerLaws.dfy` | what every accepted document is, and which replacements stay accepted |
| `Acceptance.dfy`, `Disagreements.dfy` | which built documents the daemon accepts, and concrete ones it does not |
| `ConfigStore.dfy`, `StoreLaws.dfy` | subscriptions, locations and the user's choice in the CLI configuration |
| `LogStore.dfy` | the rotating Xray log |
| `Calendar.dfy` | day number to Gregorian date (section 5.7 and Appendix C of RFC 3339) |
| `Basics.dfy`, `Text.dfy`, `Addresses.dfy` | options and sequences, comma lists and decimals, IP prefixes |

## What turned out not to hold

Each of these is stated in the model as it is in the code, with the exact condition and a concrete input.

- A kill-switch session can end up `Blocking` with no hold block: a reconnect whose hold verification fails
  removes the block and keeps `block_on_failure`. Over every run this is the only step that can do it
  (`Lifecycle.RunKeepsHold`; a run in `Lifecycle.BlockingWithoutHold`).
- A hold block can be left that no phase answers for. The helper reports a removal as done whatever nft says, so a
  removal may leave the block. Over every run exactly these steps do it: a request refused out of `Blocking` or
  `RecoveryRequired`; a proxy connection over a block that was there; a failed installation outside a kill-switch
  session that took effect or found a block; and a removal that leaves the block unnoticed, after a failed
  verification outside such a session, around a data plane without kill switch, or in a disconnect
  (`Lifecycle.RunExplainsHold`; runs in `Lifecycle.RefusedRequestForgetsBlocking`,
  `Lifecycle.ProxyReconnectKeepsHold`, `Lifecycle.FailedRemovalIsForgotten` and `Lifecycle.IgnoredRemovalKeepsHold`).
- A failed edit of the live split list can leave the split running a list the daemon does not know about, and the
  next reconnect with the old list keeps it (`SplitBackend.RunsStaySynced`; a run in
  `SplitBackend.KeptSplitRunsAnotherList`).
- `route_up` gives a clean host back exactly, unless the failing command is one of a server-pin loop that had laid a
  pin: the list `route_down` reads is written after the loop (`NetHelper.RouteUp`; a run in
  `NetHelper.InterruptedPinLoop`).
- Printing, parsing and printing a server again can lose empty fields, blanks around the user or password of an http
  or socks proxy, an `alpn` of blanks, `headerType=http`, and what the parser does not read of http and kcp
  (`Outbound.RoundTripExactly`; servers in `Outbound.PaddedLoginIsLost` and `Outbound.BlankAlpnIsLost`).
- The client and the daemon disagree about provider JSON: the client does not look for `certificatePath` and
  `keyPath`, compares protocols without regard to case and lets balancer tags be empty or repeated, all of which the
  daemon refuses (`Acceptance.MainExactly`, `Acceptance.ProbeExactly`; documents in `Acceptance.ValidatedYetRefused`,
  `Disagreements.UpperCaseIsRefused` and `Disagreements.EmptyAndRepeatedTags`).
- `validate_server` reads protocol and security without regard to case, and printing does not: `Trojan` is validated
  as Trojan and printed as VLESS, and Hysteria over `TLS` is printed without TLS (`XrayConfig.PrintedAsValidated`,
  `XrayConfig.HysteriaKeepsTls`; servers in `Disagreements.CapitalTrojanIsPrintedAsVless` and
  `Disagreements.CapitalTlsIsDropped`).
- JSON of a bare outbound that names a local file passes `validate_server` and then panics when the configuration is
  built (`XrayConfig.ValidatedHasPlan`; a location in `Disagreements.FileInBareOutboundPanics`).

## Model

| member | source | states |
|---|---|---|
| Lifecycle.LifecycleManager.ConnectTo | daemon/src/lifecycle.rs:62-154 | the manager's new state, the calls it made and its answer are those of the specification `Connect`, under every outcome of every backend call; what it may answer is `Answers.ConnectAnswers` |
| Lifecycle.LifecycleManager.StartVerified | daemon/src/lifecycle.rs:117-153 | start, activate, verify, and the cleanup or commit that follows, as `BringUp` |
| Lifecycle.LifecycleManager.TearDown | daemon/src/lifecycle.rs:176-195 | disconnect stops the data plane and removes the hold block, as `Disconnect` |
| Lifecycle.LifecycleManager.CheckHealth | daemon/src/lifecycle.rs:197-221 | a dead data plane moves to blocking, disconnected or recovery, as `ReconcileHealth` |
| Lifecycle.LifecycleManager.UpdateApplications | daemon/src/lifecycle.rs:161-174 | a live split edit only while connected, as `UpdateLiveSplit` |
| Lifecycle.ConnectKeepsHold | daemon/src/lifecycle.rs:62-154 | a connect keeps "blocking, or connected under a kill switch, implies the hold block" exactly when it is not the reconnect that drops it |
| Lifecycle.ExecKeepsHold | daemon/src/lifecycle.rs:56-221 | the same for every command |
| Lifecycle.RunKeepsHold | daemon/src/lifecycle.rs:62-222 | over every run from Disconnected or RecoveryRequired, the promise holds at every command boundary if and only if no command is a reconnect out of a kill-switch session with a failed hold verification and a removal that reports success and takes the block away |
| Lifecycle.BlockingWithoutHold | daemon/src/lifecycle.rs:91-101 | a concrete run that ends Blocking without a hold block |
| Lifecycle.ConnectExplained | daemon/src/lifecycle.rs:62-154 | a connect leaves an unexplained block exactly under the listed outcomes and effects of its calls, mode, phase and prior block |
| Lifecycle.ExecExplained | daemon/src/lifecycle.rs:56-221 | the same for every command, with the disconnect whose removal leaves the block |
| Lifecycle.RunExplainsHold | daemon/src/lifecycle.rs:62-222 | over every run, an installed hold block goes with Blocking, RecoveryRequired or a connected kill-switch session at every command boundary, if and only if no command is one of those that strand it |
| Lifecycle.RefusedRequestForgetsBlocking | daemon/src/lifecycle.rs:62-80 | a concrete run: blocked after a failed start, a refused second request ends Disconnected with the block still there |
| Lifecycle.ProxyReconnectKeepsHold | daemon/src/lifecycle.rs:81-153 | a concrete run with every call succeeding: a kill-switch session, then proxy mode, ends Connected, not blocking on failure, under the block |
| Lifecycle.FailedRemovalIsForgotten | daemon/src/lifecycle.rs:124-139 | a concrete run: a failed first attempt whose removal of the block fails ends Disconnected under it |
| Lifecycle.IgnoredRemovalKeepsHold | helper/src/main.rs:464-472 | a concrete run with every call reporting success: a kill-switch session and a disconnect end Disconnected under the block |
| Lifecycle.ExecSettles | daemon/src/lifecycle.rs:62-222 | no command leaves Preparing or Reconnecting behind, and Connected means started and verified with no stop since |
| Lifecycle.RunSettles | daemon/src/lifecycle.rs:62-222 | the same in every state between commands of every run |
| Lifecycle.RemovalFollowsConfirmation | daemon/src/lifecycle.rs:117-144 | bringing a replacement up removes the hold block only right after a successful verification |
| Lifecycle.ReconnectOpening | daemon/src/lifecycle.rs:81-115 | the calls of a TUN reconnect up to the stop of the old data plane, for every failure |
| Lifecycle.ReconnectNeverExposes | daemon/src/lifecycle.rs:81-144 | in every TUN reconnect a stop comes after an installed and verified hold block, which is present after every later call and at the return until the new connection has been verified |
| Lifecycle.HoldPersists | daemon/src/lifecycle.rs:81-144 | without a removal the hold block stays through any calls |
| Answers.ConnectFollowsItsScript | daemon/src/lifecycle.rs:62-154 | the calls of a connect are its script up to the first failure and the follow-up of that failure, and state and answer are those of the call it stopped at, for every outcome of every call |
| Answers.ConnectAnswers | daemon/src/lifecycle.rs:62-154 | success if and only if every call of the command went well, then with exactly the new state: Connected, DNS protected iff TUN, split active iff applications are excluded; a failure names the first call that failed |
| Answers.DisconnectAnswers | daemon/src/lifecycle.rs:176-195 | both calls are made whatever happens; success and Disconnected iff both went well, else CleanupFailed and RecoveryRequired |
| Answers.HealthAnswers | daemon/src/lifecycle.rs:197-221 | asks only while connected, stops only a dead data plane, fails iff that stop fails, and ends Blocking iff the session blocks on failure |
| Answers.SplitAnswers | daemon/src/lifecycle.rs:161-174 | refused without a call unless connected; a failed edit changes nothing and names itself; a successful one books what the backend reports |
| Answers.PersistFailureAnswers | daemon/src/lifecycle.rs:56-60 | a state that could not be written ends in RecoveryRequired without a call |
| NetHelper.RouteUp | helper/src/main.rs:1217-1359 | success gives exactly `Up`, which closes IPv6 and draws IPv4 into the tunnel (`TunnelRoutes.Ipv6IsClosed`, `TunnelRoutes.Ipv4EntersTheTunnel`); the first failing command decides the rest: a clean host is given back exactly if and only if that command is not one of a pin loop that had laid a pin, and otherwise exactly those pins are left; at every intermediate step, rollback included, no IPv4 server is routed into its own tunnel |
| NetHelper.RouteDown | helper/src/main.rs:1368-1443 | the result is `Down` of the state it finds, and every step on the way keeps the servers out of the tunnel |
| NetHelper.UpThenDown | helper/src/main.rs:1217-1443 | from a clean state, route-up then route-down gives back every table, rule, filter and file, and no step routes a server into the tunnel |
| NetHelper.DownInvertsUp | helper/src/main.rs:1217-1443 | `Down(Up(n)) == n` for every clean state, server list and choice of IPv6 |
| NetHelper.LeftoverPins | helper/src/main.rs:1279-1297 | pins laid on a clean table change it exactly when there are any |
| NetHelper.InterruptedPinLoop | helper/src/main.rs:1279-1297 | a concrete run: two servers, the second pin fails, and the first stays behind |
| NetHelper.RestoredUnlessPinned | helper/src/main.rs:1279-1349 | a clean host with leftover pins is the host itself exactly when there are none of either family |
| NetHelper.UpIsSafe | helper/src/main.rs:1279-1324 | the routing in place keeps every IPv4 server on the physical path |
| NetHelper.CleanIsSafe | helper/src/main.rs:1279-1324 | so does a clean state |
| NetHelper.AddRule | helper/src/main.rs:1170-1175 | delete, then add, leaves exactly one more or the same rule; a failed add leaves it deleted, and nothing else changes |
| NetHelper.LayDns | helper/src/main.rs:1177-1230 | the DNS policy route, its rule and the reverse-path filter; whatever fails, the rest can be undone |
| NetHelper.LayBypass | helper/src/main.rs:1232-1278 | the bypass table of one family with its thrown local networks and the rules of both marks |
| NetHelper.PinServers | helper/src/main.rs:1279-1297 | the pins of the first servers are laid, one per command asked before the failing one, and no step is unsafe |
| NetHelper.LayPins | helper/src/main.rs:1217-1297 | base, pins and their record; the number of the failing command says how many pins are left, none unless it is one of the loop |
| NetHelper.LayHalves | helper/src/main.rs:1320-1352 | the two halves of both families, the IPv6 ones as blackholes (`TunnelRoutes.UpMainTables`), and the IPv6 pins between them, safe at every step; the failing command says how many IPv6 pins are left |
| NetHelper.DrawV4 | helper/src/main.rs:1320-1324 | the IPv4 halves, safe because every server is pinned, undone by route-down wherever they stop |
| NetHelper.LayPins6 | helper/src/main.rs:1331-1349 | the IPv6 pins and their record, none when the host has no IPv6 route |
| NetHelper.CloseV6 | helper/src/main.rs:1350-1352 | the IPv6 blackholes, undone by route-down wherever they stop; with both laid every address not pinned or routed longer is blackholed (`TunnelRoutes.Ipv6IsClosed`) |
| NetHelper.DropMark | helper/src/main.rs:1387-1402 | up to four rules of a mark go, lowest table first |
| NetHelper.UnpinServers | helper/src/main.rs:1427-1433 | the recorded pins go and nothing else |
| NetHelper.UnpinUndoesPin | helper/src/main.rs:1279-1297 | removing the recorded pins from the table they were laid on gives the table back |
| NetHelper.DownUndoes | helper/src/main.rs:1368-1443 | from any partial state of a route-up, route-down restores all but the main tables |
| NetHelper.Down4AfterHalves | helper/src/main.rs:1368-1433 | and the IPv4 main table with none, one or both halves laid |
| Firewall.MarkingChain | daemon/src/nft.rs:8-30 | DNS to another host carries mark 0x2023 unless Xray or the split sent it |
| Firewall.GuardChain | daemon/src/nft.rs:8-30 | the exact verdict of the guard on every packet |
| Firewall.KillswitchRules | helper/src/main.rs:388-436 | the built chain accepts a packet if and only if it is one of the sanctioned kinds, else drops it |
| Firewall.MarksChain | helper/src/main.rs:388-436 | the mark rules accept exactly the three marks, on packet or connection |
| Firewall.LanDnsChain | helper/src/main.rs:388-436 | DNS to the LAN is dropped before the LAN is accepted |
| Firewall.RouteUpSendsDnsMark | helper/src/main.rs:1177-1215 | after route-up the DNS mark has one table and that table one route, into the tunnel |
| Firewall.DnsStaysInTheTunnel | daemon/src/nft.rs:8-30 | through marking, route lookup, guard and kill switch: unmarked DNS leaves by the tunnel and is accepted, 0x2024 is rejected, and DNS gets out on another device if and only if it carries 0x2025 |
| Firewall.BringUpGuarded | helper/src/main.rs:1177-1359 | from a clean host, after a successful route-up and with the built kill switch, every DNS packet under every route lookup is so confined |
| FilterLaws.KillswitchLetsOut | helper/src/main.rs:388-436 | the packets the kill switch lets through, by marks, ports, devices and address ranges |
| FilterLaws.BuildKillswitch | helper/src/main.rs:388-436 | the built chain accepts exactly those and drops all others |
| FilterLaws.LanMeans | helper/src/main.rs:388-436 | the LAN is five IPv4 and two IPv6 ranges of addresses |
| PolicyRouting.MarkDecides | helper/src/main.rs:1177-1205 | a mark with one table and one route for everything goes that way and no other, in any order of the rules |
| PolicyRouting.NeverBy | helper/src/main.rs:1177-1205 | a device no table routes to is never taken |
| TunnelRoutes.Ipv6IsClosed | helper/src/main.rs:1326-1352 | after a successful route-up the longest prefix of every IPv6 address is a blackhole, unless the address is a pinned server, which goes by the physical path, or the host had a route longer than /1 for it |
| TunnelRoutes.Ipv6LeavesOnlyByRoute | helper/src/main.rs:1326-1352 | so IPv6 leaves by a physical path only to a pinned server or along a longer route of the host |
| TunnelRoutes.Ipv4EntersTheTunnel | helper/src/main.rs:1279-1324 | every IPv4 address is routed into the tunnel but a server, which goes by the physical path, and what the host has a longer route for |
| TunnelRoutes.HalvesDecide | helper/src/main.rs:1320-1352 | two /1 routes beat the default and lose to any longer route, for either family |
| TunnelRoutes.PinDecides | helper/src/main.rs:1279-1297 | a host route beats every route of the host but one just as long |
| TunnelRoutes.UpMainTables | helper/src/main.rs:1217-1359 | the main tables, reverse-path filter and state files once the routing is up |
| TunnelRoutes.UpPolicy | helper/src/main.rs:1232-1278 | the mark rules and bypass tables of both families once the routing is up |
| TunnelRoutes.DialsLeaveByThePhysicalPath | helper/src/main.rs:1232-1278 | a packet of mark 0x2024 goes by the physical path and no other, and to a local network as the main table says, in any order of the rules |
| TunnelRoutes.ExcludedLeaveByThePhysicalPath | daemon/src/split/routing.rs:122-180 | the same for mark 0x2025 once a split is live over the helper's routing |
| TunnelRoutes.BypassedGoesBy | daemon/src/split/routing.rs:122-180 | the same for any mark whose tables hold a default and thrown local networks |
| TunnelRoutes.MarkedIpv6Leaves | helper/src/main.rs:1262-1278 | IPv6 of either mark goes by the physical path, past the blackholes, and to a local network as the main table says; without IPv6 on the host all of it does |
| TunnelRoutes.LocalMeans | helper/src/main.rs:1249-1274 | local are the LAN ranges, multicast and the broadcast address, and of IPv6 the LAN ranges and multicast |
| SplitBackend.InstallRouting | daemon/src/split/routing.rs:122-180 | success puts the 0x2025 rule on table 102 with its default and throws; in every case only the split's rule and table change |
| SplitBackend.TearDownRouting | daemon/src/split/routing.rs:148-163 | the split's rule and table go and nothing else |
| SplitBackend.RemoveRouting | daemon/src/split/routing.rs:182-200 | the split's rule and table are gone, its chains too unless that command fails, and nothing else changes |
| SplitBackend.Backend.ApplySplit | daemon/src/system.rs:912-926 | success books a live split running the list, routed on the physical path; failure leaves the book |
| SplitBackend.Backend.RemoveSplit | daemon/src/system.rs:928-941 | the book is empty afterwards whatever failed |
| SplitBackend.Backend.UpdateSplit | daemon/src/system.rs:1007-1030 | success runs exactly the new list; a failure says exactly how far the running list got |
| SplitBackend.Backend.StopTunnel | daemon/src/system.rs:1032-1054 | a reconnect keeps the book, any other stop empties it and removes the split's routing; the helper's routing goes; the answer says whether every step went well |
| SplitBackend.Backend.ActivateNetwork | daemon/src/system.rs:1099-1127 | success gives the specified book, the helper's routing untouched outside the split's part, and the 0x2025 rule on table 102 whenever a split is live; a failure gives the book and the routing of the step it stopped at |
| SplitBackend.ActivationRunsTheRequest | daemon/src/system.rs:1099-1127 | a split is live iff the request is non-empty, and runs the requested list iff the book was right about a kept split |
| SplitBackend.OnlyAHalfDoneEditUnsyncs | daemon/src/split/system.rs:341-364 | the book goes wrong exactly by an edit to another list that fails after its rules are in |
| SplitBackend.KeptSplitRunsAnotherList | daemon/src/system.rs:1099-1127 | a concrete edit and reconnect after which a live split runs another list |
| SplitBackend.RunsStaySynced | daemon/src/system.rs:1007-1127 | through every run of activations that succeed or fail anywhere, edits, stops and reconnects, the live split runs the booked list at every boundary if and only if no edit was half done |
| SplitBackend.OpStaysSynced | daemon/src/system.rs:1007-1127 | the same for one operation |
| SplitBackend.LastActivationRuns | daemon/src/system.rs:1099-1127 | and then a run that ends in an activation has a live split exactly if the request is non-empty, running it |
| SplitLaws.RunsStayWatched | daemon/src/system.rs:1007-1127 | through every run the live split is watched and routed at every boundary if and only if no edit lost its watcher |
| SplitLaws.WatcherComesBack | daemon/src/split/system.rs:341-364 | a lost watcher comes back exactly by a later edit whose rules go in or by a replacement, not by a reconnect that keeps the split |
| SplitLaws.FailureKeepsTheSplit | daemon/src/system.rs:1099-1127 | a failed activation loses a live split only if it was to replace or remove it and had begun to |
| SplitBackend.RouteDownTakesTheSplitRule | helper/src/main.rs:1387-1402 | route-down deletes the split's rule too, and leaves its table |
| SplitBackend.MarkIsGone | helper/src/main.rs:1387-1402 | deleting a mark four times leaves none of up to four rules |
| SplitBackend.OtherMarkStays | helper/src/main.rs:1387-1402 | and no rule of another mark goes |
| SplitBackend.SplitLeavesTheHelperAlone | daemon/src/split/routing.rs:122-180 | whatever the split does, table 100, its default route and the rule of Xray's own dials stay |
| ProcessTree.Subtree | daemon/src/split/system.rs:267-281 | terminates on every child map, cycles included, with exactly the reachable processes, each once |
| ProcessTree.ClosedCoversReachable | daemon/src/split/system.rs:267-281 | a set closed under children contains everything reachable from its members |
| SplitReconciler.ReadProcessTree | daemon/src/split/system.rs:236-264 | the map built from the process table |
| SplitReconciler.TreeUpToIsParentage | daemon/src/split/system.rs:236-264 | is the parent relation among the owner's processes |
| SplitReconciler.Reconciler.TakeIn | daemon/src/split/system.rs:160-188 | every claimed process joins, or the loop stops at a refused move |
| SplitReconciler.Reconciler.Attribute | daemon/src/split/system.rs:196-215 | members that left are forgotten and unrecorded members get a rule that names them, within the bound |
| SplitReconciler.Reconciler.HandBack | daemon/src/split/system.rs:216-233 | exactly the processes at or below one with a stale rule are moved out and forgotten |
| SplitReconciler.Reconciler.Reconcile | daemon/src/split/system.rs:154-233 | a successful pass is related to its outcome by `Pass`; one that a refused move stopped only took in claimed processes, with rules of the plan on record for them |
| SplitReconciler.PassIsSound | daemon/src/split/system.rs:154-233 | every pass ends with the record within the members, under rules of the plan and at most 8192, and ejects, of old members and of those that joined in the pass, only descendants-or-self of a process whose recorded rule left the plan |
| SplitReconciler.QuietPass | daemon/src/split/system.rs:154-233 | with no stale rule on record a pass only adds |
| SplitReconciler.NobodyLeftToJoin | daemon/src/split/system.rs:160-188 | after it nobody is left to join |
| SplitReconciler.RecordSettles | daemon/src/split/system.rs:196-215 | and the record repeats itself |
| SplitReconciler.TwoPassesConverge | daemon/src/split/system.rs:154-233 | with a fixed process table a third pass changes nothing, and every readable process of the owner that a rule names is a member |
| SplitReconciler.ReconcileTwice | daemon/src/split/system.rs:154-233 | the same through the mutable reconciler when no move in is refused: after two passes every further pass changes nothing and every named process is a member |
| SplitLaws.PassMembers | daemon/src/split/system.rs:154-233 | after a pass a process is a member if and only if it was one or the plan means it, by name or by a scope it is still in, and it does not both sit at or below a stale rule and let itself be moved out |
| SplitLaws.PassMoves | daemon/src/split/system.rs:154-233 | exactly the processes moved in or out lose their scope |
| SplitLaws.PassRecordsTheFirst | daemon/src/split/system.rs:175-215 | a rule on record was there before or is the first rule of the plan that means the process |
| RouteRules.BuildRouteRules | core/src/xray.rs:1365-1457 | first-match evaluation of the built rules is total and equals the split policy on every packet |
| RouteRules.AppRules | core/src/xray.rs:1399-1412 | the application rules match exactly the listed processes |
| RouteRules.SitePatterns | core/src/xray.rs:1408-1427 | the patterns match exactly what the listed sites cover |
| RouteRules.SplitModes | core/src/xray.rs:1365-1457 | the four mode combinations in terms of the two lists |
| RouteRules.OnlyTheSetsMatter | core/src/xray.rs:1365-1457 | order, repetition and blanks change no decision |
| RouteRules.LongerAppList | core/src/xray.rs:1365-1457 | a longer application list changes a decision only to the list's own outcome |
| RouteRules.LongerSiteList | core/src/xray.rs:1365-1457 | the same for sites |
| RouteRules.AdditionsMoveOneWay | core/src/xray.rs:1365-1457 | additions to selective lists move nothing to direct, to general lists nothing to the proxy, for any provider rules |
| PolicyLaws.SplitDecides | core/src/xray.rs:1365-1457 | the decision on every packet in terms of the two lists, their modes, the LAN switch and the provider's rules, for both kinds of tunnel |
| PolicyLaws.SocksFollowsTheSites | core/src/xray.rs:1365-1457 | without native TUN the site list alone decides, and no application matters |
| PolicyLaws.CompileSplit | core/src/xray.rs:1365-1457 | the compiled rules give every packet exactly that decision |
| PolicyLaws.PrivateMeans | core/src/xray.rs:179-190 | the LAN rule covers exactly loopback and the private, link-local, shared and unique-local ranges |
| PolicyLaws.CoversMeans | core/src/xray.rs:1408-1427 | a listed site covers itself, and one written with `*.` the name after it and every subdomain of that |
| WrittenRules.RuleReadsBack | core/src/xray.rs:1365-1457 | a written rule reads back as the compiled one: condition and target, `dns-out` included |
| WrittenRules.RulesReadBack | core/src/xray.rs:1365-1457 | and so does the list, in order |
| WrittenRules.BuildMainDocument | core/src/xray.rs:1474-1558 | the rules of the main document are the compiled ones around the provider's, read back as such, and decide every packet as the split policy does |
| Outbound.RoundTripExactly | core/src/subscription.rs:464-703 | print, parse, print gives the same outbound if and only if the server is one of `Survives`; what is printed and read, in terms of the server, is `ReadBack.ReadsBackAs` |
| Outbound.BlankAlpnIsLost | core/src/subscription.rs:607-703 | a concrete TLS server whose blank `alpn` does not come back |
| Outbound.PaddedLoginIsLost | core/src/subscription.rs:314-323 | a concrete SOCKS server whose padded user name comes back trimmed |
| Outbound.UriServersSurvive | core/src/xray.rs:727-1071 | every server a URI describes, with trimmed credentials, does |
| Outbound.StreamReadsBack | core/src/subscription.rs:607-703 | the stream settings read back exactly under their condition |
| Outbound.TlsReadsBack | core/src/subscription.rs:607-703 | TLS settings, alpn list included, read back iff the alpn names a protocol; that they are those of the server, insecure only if it asks for that, is `ReadBack.ReadsBackAs` |
| Outbound.RealityReadsBack | core/src/subscription.rs:607-703 | REALITY settings read back iff the spider path is not empty |
| Outbound.BlockReadsBack | core/src/subscription.rs:607-703 | the transport block reads back exactly under its condition |
| Outbound.SettingsReadBack | core/src/subscription.rs:478-576 | which printed settings describe a server at all |
| Outbound.SettingsPrintAgain | core/src/xray.rs:987-1071 | and exactly when printing that server gives the same settings, trimmed logins of http and socks included |
| ReadBack.ReadsBackAs | core/src/subscription.rs:464-703 | whatever is read back has the host, port, credential, flow, security, transport, path and host header of the printed server, its SNI or else its host, and `allowInsecure` if and only if it has TLS and asks for it with `1` or `true` |
| ReadBack.UriServersReadBack | core/src/xray.rs:727-1071 | every server a URI describes is read back so, with its credential where its protocol keeps it |
| ReadBack.EndpointIsPrinted | core/src/xray.rs:987-1071 | every outbound names the server's address and port, in the list its protocol has |
| ReadBack.ConstantsArePrinted | core/src/xray.rs:987-1071 | no VLESS encryption, UDP over TCP for Shadowsocks, version 2 of Hysteria |
| ReadBack.OtherBlocksArePrinted | core/src/xray.rs:751-908 | the transport blocks the parser does not read, in terms of the server |
| ReadBack.ParsedMeans | core/src/subscription.rs:476-576 | an outbound of any origin is a server if and only if its endpoint has a port and an address that is no stand-in and its protocol the credential it needs; and then endpoint and login are those of the object that names them |
| ReadBack.StreamKeepsTheLogin | core/src/subscription.rs:607-703 | the stream settings decide transport and security and nothing of the login |
| JsonReadBack.PrintedReadsBack | core/src/xray.rs:751-1071 | the JSON of every printed server reads back as the outbound it was printed from |
| JsonReadBack.StreamReadsBack | core/src/xray.rs:751-908 | so do its stream settings |
| JsonReadBack.ObjectReadsBack | core/src/xray.rs:966-1071 | and its settings object |
| JsonReadBack.ExtraIsMerged | core/src/xray.rs:809-831 | every key of xhttp: the server's host, path and mode over the provider's `extra` object, the rest as it is there |
| JsonReadBack.WireGuardReads | core/src/xray.rs:910-964 | every key of WireGuard settings, in terms of the server |
| JsonReadBack.PeersRead | core/src/xray.rs:910-964 | and of its peer |
| JsonReadBack.WireGuardLists | core/src/xray.rs:910-964 | the listed addresses or 10.0.0.1/32, and the reserved bytes as given |
| Text.SplitUndoesJoin | core/src/xray.rs:742-747 | splitting a joined comma list gives it back |
| OutboundJson.PrintedOutbound | core/src/xray.rs:751-1071 | a printed outbound has tag, protocol and dial mark, and names a file only if `extra` does |
| XrayConfig.ProviderProxyOutbounds | core/src/xray.rs:323-363 | the loop keeps exactly the supported outbounds, sanitized and tagged, and refuses exactly file references, reserved or repeated tags and an empty result |
| XrayConfig.SanitizedIsGood | core/src/xray.rs:261-307 | a sanitized outbound keeps its protocol and carries the dial mark unless it is WireGuard |
| XrayConfig.LastTargetIsNamed | core/src/xray.rs:545-575 | a target taken from provider rules exists in the plan |
| XrayConfig.PlanIsGood | core/src/xray.rs:491-603 | every plan has distinct usable tags, marked proxies, balancers that select a proxy and an existing target |
| XrayConfig.ValidatedHasPlan | core/src/xray.rs:661-722 | a validated server has a plan, except bare outbound JSON that refers to a file, which panics |
| XrayConfig.PrintedAsValidated | core/src/xray.rs:678-681 | a validated server is printed under the protocol it was validated as, exactly unless it spells another one than VLESS with a capital letter |
| XrayConfig.HysteriaKeepsTls | core/src/xray.rs:712-720 | a server validated as Hysteria is printed with TLS exactly if it spells that in lower case |
| PlanLaws.SearchFindsEveryReference | core/src/xray.rs:309-321 | the client's search finds a file reference if and only if some path of keys and indices leads to one |
| PlanLaws.SanitizeTakes | core/src/xray.rs:261-307 | provider JSON is taken exactly if it is a proxy and no path through it leads to a file |
| PlanLaws.SanitizeKeeps | core/src/xray.rs:261-307 | key by key: all stays but the source address, and the tag, chain and stream settings as stated |
| PlanLaws.MarkedStreamKeeps | core/src/xray.rs:261-307 | stream settings and socket options stay, with the mark; a lone outbound loses its dialer |
| PlanLaws.TagIsKept | core/src/xray.rs:323-363 | an outbound of a profile keeps its tag or is numbered by its place |
| PlanLaws.ProxiesInOrder | core/src/xray.rs:323-363 | the proxies of a profile are its proxy outbounds, all of them and in order |
| PlanLaws.SafeRuleMeans | core/src/xray.rs:365-445 | a provider rule stays if and only if it names addresses, ports, protocols or users, no domain, process or inbound, needs no data file, leads to something that exists, and opens no local network |
| PlanLaws.KeptRules | core/src/xray.rs:365-445 | exactly those stay, in the provider's order |
| PlanLaws.RuleTargetMeans | core/src/xray.rs:545-575 | a rule leads to its balancer, else to its proxy, else nowhere |
| PlanLaws.TargetIsTheLast | core/src/xray.rs:545-603 | the effective target is that of the last rule that leads anywhere, else a balancer, else the first proxy |
| PlanLaws.ProfilePlanCarries | core/src/xray.rs:491-603 | a profile is a plan of its own exactly with several proxies, balancers or an observatory, and the plan carries all of these as written |
| PlanLaws.ValidatedIsEnterable | core/src/xray.rs:661-722 | which servers entered by hand are valid |
| XrayDocuments.BuildPingConfig | core/src/xray.rs:1570-1611 | the loops build the specified document, and refuse a wrong number of ports |
| DocumentLaws.KeptServerMeans | core/src/xray.rs:1196-1227 | exactly the safe provider resolvers stay, under their normalised address, with everything else about them |
| DocumentLaws.KeptServersInOrder | core/src/xray.rs:1196-1227 | each on its own account and in order |
| DocumentLaws.DnsServers | core/src/xray.rs:1233-1247 | the two default resolvers are used if and only if none is safe |
| DocumentLaws.DnsSection | core/src/xray.rs:1233-1310 | the section is the provider's key by key, without its client address |
| DocumentLaws.DnsStrategy | core/src/xray.rs:1249-1262 | the provider's query strategy if it is one of the five, else UseIPv4 |
| DocumentLaws.DnsHostsMean | core/src/xray.rs:1287-1304 | every host of the provider stays; the bootstrap of the default resolvers is added exactly when they are used |
| DocumentLaws.MainCarries | core/src/xray.rs:1474-1558 | the main document has the plan's proxies before the system's outbounds, its observatories, the inbound of the mode and a known log level |
| DocumentLaws.InboundMeans | core/src/xray.rs:1321-1350 | the device with the MTU asked for, or SOCKS with UDP and without login, both sniffing names to route by |
| DocumentLaws.LevelIsKnown | core/src/xray.rs:1462-1470 | the log level asked for if Xray knows it, else `warning` |
| DocumentLaws.DirectLeavesMarked | core/src/xray.rs:1077-1084 | direct traffic leaves under the dial mark and so not into the tunnel |
| DocumentLaws.RoutingMeans | core/src/xray.rs:467-489 | of the provider's routing a known strategy and matcher stay, and the balancers |
| DocumentLaws.PlaceholdersAreConsecutive | core/src/xray.rs:1613-1624 | up to 64 proxies are measured on consecutive ports from 20810 |
| DocumentLaws.PreflightFollowsThePlan | core/src/xray.rs:1630-1664 | the preflight has one rule, which sends everything to the plan's target, and the plan's balancers |
| DocumentLaws.LegacyFollowsItsProxy | core/src/xray.rs:1669-1690 | the older probe has one rule, which sends everything to the proxy that stands for the plan |
| DocumentLaws.PingTagOfOutbound | core/src/xray.rs:605-617 | a plan that leads to an outbound is stood for by that |
| DocumentLaws.PingTagFallsBack | core/src/xray.rs:605-656 | a balancer is stood for by its fallback if that is a proxy |
| DocumentLaws.PingTagSelected | core/src/xray.rs:605-656 | else by the first proxy that its first fitting selector fits |
| DocumentLaws.PingTagOtherwise | core/src/xray.rs:605-656 | else by the first proxy |
| ConfigChecker.ValidateXrayDocument | daemon/src/system.rs:1351-1501 | accepts exactly the documents of `MainAccepted`, which are those of `CheckerLaws.MainAcceptedMeans` |
| ConfigChecker.ValidatePingDocument | daemon/src/system.rs:1503-1756 | accepts exactly the documents and ports of `PingAccepted` |
| ConfigChecker.CheckTags | daemon/src/system.rs:1436-1442 | tags are present, non-empty and distinct |
| ConfigChecker.CheckProxies | daemon/src/system.rs:1601-1634 | proxies are of a known protocol, tagged apart and marked |
| ConfigChecker.CheckBalancers | daemon/src/system.rs:1653-1706 | at most 64 balancers, tagged apart, each selecting a proxy |
| CheckerLaws.MainAcceptedMeans | daemon/src/system.rs:1351-1501 | a main document is accepted if and only if it has only the seven known keys, one admitted inbound, the system's outbounds beside one to 64 proxies with distinct tags, and no path through it leads to a file |
| CheckerLaws.AcceptedIsSafe | daemon/src/system.rs:1351-1501 | every document accepted for proxy mode has one inbound, SOCKS on 127.0.0.1:2081; every one accepted for TUN has one, of the tunnel device |
| CheckerLaws.ReplacedInbound | daemon/src/system.rs:1405-1434 | put any JSON in the place of the inbound of an accepted document: exactly the admitted inbounds without file keys stay accepted |
| CheckerLaws.ProbeAcceptedMeans | daemon/src/system.rs:1503-1756 | acceptance of a probe restated in the same way |
| CheckerLaws.AcceptedProbeIsSafe | daemon/src/system.rs:1503-1756 | every inbound of an accepted probe is SOCKS on loopback at its port, without login and UDP, and every proxy dials under the mark or is WireGuard |
| CheckerLaws.ReplacedProbeInbound | daemon/src/system.rs:1559-1600 | any JSON of the same tag in the place of an inbound stays accepted exactly if it is one of these |
| CheckerLaws.ReplacedProbeProxy | daemon/src/system.rs:1601-1634 | the same for a proxy |
| CheckerLaws.AdmittedIsMainOutbounds | daemon/src/system.rs:1436-1470 | the outbounds of a main document: tagged apart, with the three of the system |
| CheckerLaws.SearchFindsEveryFileKey | daemon/src/system.rs:1777-1788 | the search finds a file key if and only if some path of keys and indices leads to one |
| JsonValues.CleanIsStructural | daemon/src/system.rs:1777-1788 | a value has no file key exactly when none of its parts has |
| ValidationPorts.ValidationConfigWithPorts | daemon/src/system.rs:1313-1349 | refuses exactly unusable port lists and wrong counts, replaces only the ports, which then read back |
| ValidationPorts.PortsReadBack | daemon/src/system.rs:1278-1311 | reading a rewritten document gives exactly the new ports |
| ValidationPorts.PortsAreImmaterial | daemon/src/system.rs:1278-1349 | for every document: rewriting to fresh ports succeeds, is accepted if and only if the template was, and rewriting back restores the template |
| DocumentLaws.MovesExactly | daemon/src/system.rs:1278-1349 | a probe moves to ports of sixteen bits if and only if there is one for each inbound, no two are the same and the moved document can be read |
| DocumentLaws.MoveKeeps | daemon/src/system.rs:1313-1349 | and nothing but the ports changes |
| Acceptance.MainExactly | core/src/xray.rs:1474-1558 | the main configuration is accepted if and only if in the mode it was built for, with at most 64 lower-case proxies and no file key in the provider JSON it carries |
| Acceptance.PingExactly | core/src/xray.rs:1570-1611 | the latency document is accepted if and only if asked with its own ports and its proxies fit |
| Acceptance.EachPortMeasuresItsProxy | core/src/xray.rs:1579-1600 | exactly the i-th rule takes the i-th inbound, and sends it to the i-th proxy and no other |
| Acceptance.ProbeExactly | core/src/xray.rs:1630-1664 | the preflight is accepted if and only if, besides, at most 64 balancers have distinct non-empty tags |
| Acceptance.LegacyExactly | core/src/xray.rs:1669-1690 | the single-path probe is accepted if and only if the proxies fit, for any balancers |
| Acceptance.PingTagIsAProxy | core/src/xray.rs:605-656 | the proxy standing for a balanced profile is one of its proxies |
| Acceptance.PingEndToEnd | core/src/xray.rs:1562-1624 | placeholder ports exist for up to 64 proxies, and the document is accepted with them and after any rewriting, read back exactly and restored by rewriting back |
| Acceptance.ProbeEndToEnd | core/src/xray.rs:1630-1664 | the rewritten preflight reads back its port and is accepted exactly under the same condition |
| Acceptance.ValidatedIsAccepted | core/src/xray.rs:661-722 | every validated location without file keys gives accepted main, latency and preflight documents, given the size, case and tag conditions |
| Acceptance.ValidatedYetRefused | core/src/xray.rs:309-321 | provider JSON with a `certificatePath` is validated and built, and refused by the daemon |
| Disagreements.FileInBareOutboundPanics | core/src/xray.rs:661-676 | a bare outbound with a `certificateFile` is validated, and building it panics |
| Disagreements.CapitalTrojanIsPrintedAsVless | core/src/xray.rs:987-1071 | a concrete server of protocol `Trojan`, validated and printed as VLESS |
| Disagreements.CapitalTlsIsDropped | core/src/xray.rs:712-720 | a concrete Hysteria server over `TLS`, validated and printed without it |
| Disagreements.UpperCaseIsRefused | core/src/xray.rs:261-276 | an outbound of protocol `VLESS` is validated and built, and refused in both documents |
| Disagreements.BalancerTagsAreRefused | core/src/xray.rs:519-544 | every profile with an empty or repeated balancer tag is validated, and its preflight refused |
| Disagreements.EmptyAndRepeatedTags | core/src/xray.rs:519-544 | the two concrete profiles, with one empty tag and with one tag twice |
| ConfigStore.Store.ReplaceSubscriptionLocations | cli/src/config.rs:543-577 | the new configuration is `Replaced`, and the counts are the keys that came and went |
| ConfigStore.Store.RemoveSubscription | cli/src/config.rs:581-590 | the subscription and its locations go, and the choice is reconciled |
| ConfigStore.Store.AddManual | cli/src/config.rs:521-534 | a manual location replaces the manual one of the same key or is appended, as `WithManual`; that it is stored, and where, is `StoreLaws.ManualIsStored` |
| ConfigStore.Store.ReconcileActive | cli/src/config.rs:633-672 | the choice after a change, by key, endpoint and label within its home |
| ConfigStore.ActivePosition | cli/src/config.rs:603-619 | the first location of the chosen key from its very source, else the first inside its home, and none exactly when there is no such location |
| ConfigStore.UpdateReplacesExactly | cli/src/config.rs:543-577 | the subscription's locations are exactly the new list in order, all others unchanged in order, nothing before the list's place moved |
| ConfigStore.SplicePoint | cli/src/config.rs:543-577 | everything before the first old entry belongs to others |
| ConfigStore.SpliceIsIdempotent | cli/src/config.rs:543-577 | a list in place is put back where it is |
| ConfigStore.RefoundAgain | cli/src/config.rs:633-672 | reconciling a reconciled choice changes nothing |
| ConfigStore.UpdateIsIdempotent | cli/src/config.rs:543-672 | the same update again changes neither locations nor choice and reports (0, 0) |
| ConfigStore.UpdateNeverPicksAStranger | cli/src/config.rs:633-672 | a choice moves only to a location that shares its label or endpoint |
| ConfigStore.PresentChoiceStays | cli/src/config.rs:633-672 | a choice present at home is not moved |
| ConfigStore.ElsewhereKeepsChoice | cli/src/config.rs:521-672 | one operation elsewhere keeps the choice and its home's locations |
| ConfigStore.ChoiceSurvivesOthers | cli/src/config.rs:521-672 | through any sequence of updates and removals of other subscriptions and manual adds, a present choice stays the same key, source and server |
| ConfigStore.LostChoiceStays | cli/src/config.rs:633-672 | a lost choice with no match stays as it was made |
| ConfigStore.LostChoiceComesBack | cli/src/config.rs:521-672 | it is restored by the first later update of its subscription that carries its key, when nothing in between matched |
| StoreLaws.ManualIsStored | cli/src/config.rs:521-534 | the server is in the list as a manual location; the list is one longer iff no manual location had its key; every other index is unchanged, and no location of a subscription is taken over |
| StoreLaws.ManualTwice | cli/src/config.rs:521-534 | adding it again changes nothing |
| StoreLaws.RemovalRemoves | cli/src/config.rs:581-590 | the subscription and exactly the locations of its URL are gone, all else in order |
| StoreLaws.CountMissingCounts | cli/src/config.rs:543-577 | the reported counts are the numbers of entries whose key is not in the other list |
| StoreLaws.EndpointMeans | cli/src/config.rs:63-85 | two servers are one endpoint if and only if nothing but their label tells them apart |
| StoreLaws.RefoundInOrder | cli/src/config.rs:633-672 | by key, from its source if possible; then by endpoint, under the label if possible; then by label; otherwise nowhere |
| StoreLaws.ReconciledChoice | cli/src/config.rs:633-672 | reconciling touches the choice alone, and what is found again becomes it, with its source |
| LogStore.LogStore.Append | daemon/src/log_store.rs:24-38 | the files afterwards: rotated first if the bytes would not fit, the end of an oversized append kept |
| LogStore.LogStore.Rotate | daemon/src/log_store.rs:85-96 | the rename loop moves every file one number up and drops the oldest |
| LogStore.LogStore.Clear | daemon/src/log_store.rs:64-74 | no file is left |
| LogStore.LogStore.Tail | daemon/src/log_store.rs:40-62 | the window, from its first whole line when it was cut |
| LogStore.TailIsBoundedSuffix | daemon/src/log_store.rs:40-62 | what `tail` returns is a suffix within its bound that starts after a newline whenever it cut a window with one |
| LogStore.LogIsASuffix | daemon/src/log_store.rs:24-104 | for every sequence of clears and appends up to the cap, the files concatenate to a suffix of what was appended since the last clear, each within the cap, and more than two caps remain if anything was lost |
| LogStore.LiveFileIsASuffix | daemon/src/log_store.rs:24-104 | with appends of any size the live file is still a suffix |
| LogStore.LatestIsLive | daemon/src/log_store.rs:24-38 | after any run that ends in an append the live file ends in what was appended, or as much of its end as one file takes |
| Calendar.SuccessorIsNextDay | cli/src/display.rs:51-75 | the day number counts steps of the calendar |
| Calendar.DayNumberMonotone | cli/src/display.rs:51-75 | a later valid date has a larger day number |
| Calendar.CivilFromDaysCounts | cli/src/display.rs:59-75 | the closed form gives a valid date whose day number is the input |
| Calendar.CivilFromDaysIsInverse | cli/src/display.rs:59-75 | and is the exact two-sided inverse of the day number |
| Calendar.CivilFromDaysStepsTheCalendar | cli/src/display.rs:51-75 | day 0 is 1970-01-01 and day d+1 is the calendar successor of day d |
| Calendar.CivilFromDaysMonotone | cli/src/display.rs:59-75 | day order and date order agree, both ways |

## Left out

- The wire protocol, sockets, process spawning, fanotify, BPF, netlink and `/proc` parsing: only success or failure of such a call appears, and the process table is given as data.
- URL, base64 and JSON text parsing: documents start as parsed values; JSON numbers are integers.
- Acceptance.MainExactly: the rules the split compiler contributes are any lists of Varmlen's own rules, so it holds for all of them; how IP prefixes are written, which provider DNS addresses are safe and which route selectors are local are arbitrary functions.
- XrayConfig.PlanIsGood: which balancer a hash set yields first is an arbitrary choice from the set.
- Outbound.RoundTripExactly: WireGuard servers and the xhttp `extra` object are left out, because the parser does not read them back; transports are a lower-case vocabulary, as validation and printing read them without regard to case.
- RouteRules.BuildRouteRules: provider rules are arbitrary predicates on packets, with the rules the client kept already chosen.
- NetHelper.RouteUp: the legacy per-app bypass cgroup and the pin list of an older build are left out (the daemon never passes the one or writes the other); a failed `ip` command changes nothing, deleting a present route or rule and reading or writing a state file succeed, and mark rules point at tables 100 to 102.
- NetHelper.UpThenDown: a clean state has no host routes to the servers and none of Varmlen's own rules, tables or files; `route_down` deletes host routes that were there before.
- Firewall.DnsStaysInTheTunnel: IPv4 only, as the policy rule for the DNS mark is IPv4 only; no route names the loopback device, and the order of the rules of one mark and what a network name covers are arbitrary.
- TunnelRoutes.Ipv6IsClosed: what a named network covers and how long its prefix is are arbitrary, except that the two halves are the only /1 routes; the host is clean of host routes to the servers.
- JsonReadBack.PrintedReadsBack: without the xhttp `extra` object, which `JsonReadBack.ExtraIsMerged` covers.
- WrittenRules.RuleReadsBack: how an IP prefix is read from text is any inverse of how it is written.
- SplitReconciler.TwoPassesConverge: covers identities that survive a move (name, path, arguments); a sandbox application id is erased when its process is moved.
- SplitBackend.Backend.ActivateNetwork: cgroup, BPF and watcher are success or failure; their effects on packets are not modelled.
- ConfigStore.ChoiceSurvivesOthers: label normalisation is an arbitrary function; `migrate`, `find` and `removal` are not modelled.
- LogStore.LogStore.Tail: bytes, without the lossy UTF-8 conversion; file operations succeed.
- Calendar.CivilFromDaysCounts: unbounded integers, without the 64-bit overflow of days beyond any real date.
- Lifecycle.RunKeepsHold: installing and removing the hold block is one atomic change each, as an nft transaction is; recovery after a crash of the daemon itself is not modelled.
- `display::label`, `display::bytes`, fetching subscriptions, the CLI's commands, installers and the Android side: user interface and plumbing with shallow properties.
