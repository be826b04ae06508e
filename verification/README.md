# kconmon-ng, verified

kconmon-ng is a connectivity monitor for Kubernetes fleets: agents probe each other and external targets, a
controller keeps the registry of agents, plans who probes whom and pushes lists and assignments. This project
models the stateful parts of the controller and the agent in Dafny and proves what they promise over every
sequence of steps.

Each machine is one file. Its state is a datatype, each source operation a function on it, and the main theorems
quantify over all runs: sequences of such steps in any interleaving the source's locks allow. Beside it stands a
class (or a method with the source's loops) with the source's own fields, whose state-changing operations are proved
to take those steps. The steps of one peer stream in `PeerFanOut.dfy` (open, read the registry, first send, deliver)
are functions only.

| file | machine |
|---|---|
| `Options.dfy` | optional values |
| `PathMtu.dfy` | the path-MTU search against an arbitrary path, clock and cancellation |
| `GatewayGuard.dfy` | the pending-connection guard of the gateway |
| `EchoLimiter.dfy` | the echo server's token buckets in a bounded map |
| `MeshRing.dfy`, `MeshChords.dfy`, `MeshPlan.dfy` | the sparse-mesh plan |
| `PeerFanOut.dfy` | registry changes, plan, coalesced broadcast and streams |
| `PeerSeries.dfy` | the agent's peer list, series, graces and late results |
| `ExternalAssignments.dfy` | external-check assignments on the controller |
| `ExternalGauges.dfy` | external-check assignments and gauges on the agent |
| `Registry.dfy`, `NodeZones.dfy` | the registry, its events, and zones from nodes |
| `Tasks.dfy` | on-demand task dispatch |
| `ReactiveTraces.dfy` | traces started by failures |
| `Netlink.dfy` | the netlink route codec |

The random choices of map iteration are left open wherever they occur: a step is a relation, or takes the order as
an argument, and uniqueness lemmas show where the outcome does not depend on it. Clocks, paths, link MTUs, hash
weights and results of probes are arbitrary arguments.

## Where a promise needs a condition

- Series of the peer list: kept exactly for the lists `PeerSeries.Proper` describes (`PeerSeries.ProperIsExact`).
- Assignment agreement: kept by a push exactly when the newest push of the agent overtakes none that says otherwise
  and no drop is hidden (`ExternalAssignments.SendIsSafeIff`); two streams of one agent or crossed pushes can break it
  (`TwoStreamsCanDisagree`, `CrossedPushesDisagree`).
- External gauges: an assignment or a reload is safe exactly when the list it applies, at its limit, loses to duplicate
  keys no check that was probed before (`ExternalGauges.AssignIsSafeIff`, `ReloadIsSafeIff`). A duplicate key can break
  it, and so can lowering maxTargets under a list that was safe (`DuplicateLeavesGauge`, `LoweredLimitLeavesGauge`);
  keeping or raising maxTargets cannot (`RaisedLimitIsSafe`).
- Node zones: a node added again without its label leaves its agents the old zone
  (`NodeZones.LabelLostInAbsence`, `NodeZones.StoreIsExact`), although a removed label is meant to be a change like any
  other.
- Echo limiter: the bounded map is invisible exactly under `EchoLimiter.SafeToSweep`.
- Gateway guard: the cap holds exactly when it is at least one (`GatewayGuard.AdmitKeepsInv`).
- Task ids: entries stay exact only while ids in flight are distinct (`Tasks.InstallIsExact`).
- Netlink: an attribute reads back exactly when its length fits sixteen bits and its type has no flag bits
  (`Netlink.RoundTripIff`).
- Fan-out: a push of overlapping flushes is safe exactly when the newest goes last or what it leaves behind says the
  same (`PeerFanOut.PushIsSafeIff`, `OverlapOutOfOrderIsStale`).

## Model

| member | source | states |
|---|---|---|
| `PathMtu.ProbeSize` | internal/checker/pmtu.go:148-167 | none exactly without a configured size and a readable device; otherwise 576 to 65535 bytes, never above a device of at least 576, and the configured or the device's own size wherever that fits |
| `PathMtu.Send` | internal/checker/pmtu_search.go:68-81 | attempts go out until one is answered; the answer returned is the last one of the trace, or the search was stopped before it |
| `PathMtu.SendOnce` | internal/checker/pmtu_search.go:68-81 | one attempt adds exactly one exchange with the path's own answer, or none when cancelled |
| `PathMtu.SendTwice` | internal/checker/pmtu_search.go:68-81 | a loss is reported only after two losses |
| `PathMtu.TryBase` | internal/checker/pmtu_search.go:101-110 | the base datagram crosses, or the result is explained as unreachable |
| `PathMtu.TryFull` | internal/checker/pmtu_search.go:112-126 | the full size crosses (ok), is refused with a usable number (reduced), stops, or leaves the state the bisection starts from |
| `PathMtu.Halve` | internal/checker/pmtu_search.go:128-153 | one halving keeps a size that crossed below one that did not, halves the interval, and goes out only if it and the confirmation fit before the deadline |
| `PathMtu.Bisect` | internal/checker/pmtu_search.go:128-153 | at most 16 sends; an untruncated bisection below 65535 closes the interval to one byte |
| `PathMtu.HalvingBound` | internal/checker/pmtu_search.go:15-16 | sixteen halvings close every interval the size range allows |
| `PathMtu.ConfirmBlackhole` | internal/checker/pmtu_search.go:177-201 | a black hole is confirmed only if the full size was sent three times in all and lost each time, and the found size crossed again |
| `PathMtu.Conclude` | internal/checker/pmtu_search.go:155-173 | the verdict is explained by the trace; a search cut short before anything above the base crossed is out of time, any other keeps the size it found; only a search that saw no refusal pays for the confirmation |
| `PathMtu.Run` | internal/checker/pmtu_search.go:101-201 | whatever the path does: the verdict is explained by the trace, a usable number ends the search and is its result, a search cut short has no verdict exactly when nothing above the base crossed, at most 22 datagrams are sent, the end is at most max(start + 4 timeouts, deadline) when sends keep to the timeout, no search with room for 22 sends is truncated, and silent or mute paths are measured exactly |
| `PathMtu.ClockAdvance` | internal/checker/pmtu_search.go:128-201 | n sends take at most n timeouts |
| `PathMtu.TruncatedIsLate` | internal/checker/pmtu_search.go:128-135 | a search is cut short only when the deadline leaves no room for 22 sends |
| `PathMtu.EndsInTime` | internal/checker/pmtu_search.go:128-201 | the confirmation ends in time although it never reads the clock |
| `PathMtu.SilentPathIsExact` | internal/checker/pmtu_search.go:12-18 | a path that drops everything above T: black hole at exactly T, or no verdict when T is the base size |
| `PathMtu.MutePathIsExact` | internal/checker/pmtu_search.go:101-176 | a path that refuses everything above T without a usable number: reduced at exactly T |
| `PathMtu.NumberedPathIsExact` | internal/checker/pmtu_search.go:86-121 | a path that refuses everything above T with the number T: reduced at exactly T |
| `PathMtu.HealthyPathIsOk` | internal/checker/pmtu_search.go:101-127 | a path that carries the full size is reported ok |
| `GatewayGuard.GiveBackKeepsInv` | internal/controller/gateway_conn.go:155-190 | giving a slot back keeps the list, the per-source counts and the history of returns in step |
| `GatewayGuard.Pigeonhole` | internal/controller/gateway_conn.go:116-153 | m sources of at most k slots hold at most m times k |
| `GatewayGuard.VictimHoldsTheMost` | internal/controller/gateway_conn.go:116-153 | the victim's source, newcomer counted, holds at least every other source's share and at least (maxPending + 1)/m over m sources; a slot past TLS goes only if its source has none in handshake |
| `GatewayGuard.VictimIsUnique` | internal/controller/gateway_conn.go:124-153 | the rule leaves no choice: the victim does not depend on map order |
| `GatewayGuard.VictimRule` | internal/controller/gateway_conn.go:116-153 | the whole rule: none below the cap; a tie goes to the incoming source if it holds a slot, else to the source whose oldest slot comes first; within it the oldest slot in its handshake, else the oldest |
| `GatewayGuard.EverySlotIsTraced` | internal/controller/gateway_conn.go:88-196 | in every run, from the events alone: a slot exists once admitted, under the source it came from, and is past TLS exactly when its handshake was reported |
| `GatewayGuard.EveryRunListsByAdmission` | internal/controller/gateway_conn.go:88-114 | in every run the list is in the order of admission |
| `GatewayGuard.EveryReturnIsExplained` | internal/controller/gateway_conn.go:88-211 | in every run a slot was given back for the reason of the event that returned it, or as the victim of an admission at the cap; closed connections stay in the order they were closed |
| `GatewayGuard.AdmitKeepsInv` | internal/controller/gateway_conn.go:88-114 | admission keeps every invariant, and the cap holds afterwards if and only if it is at least one |
| `GatewayGuard.NextKeepsInv` | internal/controller/gateway_conn.go:88-211 | every step keeps the invariant and never changes why a slot was returned |
| `GatewayGuard.RunKeepsInv` | internal/controller/gateway_conn.go:88-211 | the same between any two points of a run |
| `GatewayGuard.EveryRunIsSafe` | internal/controller/gateway_conn.go:88-211 | in every run: the cap, exact counts, exactly-once return, and an authenticated connection is never closed by deadline or eviction |
| `GatewayGuard.GatewayConnGuard.MostSlots` | internal/controller/gateway_conn.go:124-153 | the largest share of any source, newcomer counted, and it is attained |
| `GatewayGuard.GatewayConnGuard.SourceToEvict` | internal/controller/gateway_conn.go:124-153 | the source that gives way |
| `GatewayGuard.GatewayConnGuard.OldestSlot` | internal/controller/gateway_conn.go:124-153 | the oldest slot in handshake of that source, else its oldest |
| `GatewayGuard.GatewayConnGuard.VictimLocked` | internal/controller/gateway_conn.go:124-153 | none below the cap, otherwise the slot the fair-share rule names |
| `GatewayGuard.GatewayConnGuard.RemoveLocked` | internal/controller/gateway_conn.go:156-167 | removes a listed slot once, drops zero counts, and reports whether it did |
| `GatewayGuard.GatewayConnGuard.Admit` | internal/controller/gateway_conn.go:88-114 | never refuses; evicts exactly the victim and lists the newcomer |
| `GatewayGuard.GatewayConnGuard.Release` | internal/controller/gateway_conn.go:181-211 | authenticated, closed or expired: only the first release gives the slot back |
| `GatewayGuard.GatewayConnGuard.HandshakeIsDone` | internal/controller/gateway_conn.go:192-196 | marks this slot, and no other, as past TLS |
| `EchoLimiter.SweptSame` | internal/agent/echo_limit.go:65-78 | a safe sweep leaves a map that treats every later datagram the same |
| `EchoLimiter.SweepIsInvisibleIff` | internal/agent/echo_limit.go:65-78 | a sweep is invisible, whatever it drops, if and only if fewer than 3584 sources are busy or every busy one is full again |
| `EchoLimiter.BoundedRefinesUnbounded` | internal/agent/echo_limit.go:43-78 | on a monotone clock with safe sweeps the bounded map gives every datagram the verdict of an unbounded token bucket |
| `EchoLimiter.MapStaysBounded` | internal/agent/echo_limit.go:43-78 | the map never exceeds 4096 entries |
| `EchoLimiter.WindowBound` | internal/agent/echo_limit.go:8-19 | one source gets at most 256 + 64t replies in any window of t seconds |
| `EchoLimiter.SweepOnlyGives` | internal/agent/echo_limit.go:65-78 | a sweep never takes a token away from anyone |
| `EchoLimiter.TokensLeft` | internal/agent/echo_limit.go:43-63 | in every run, whatever the clock and the sweeps do, a source has at least the burst less what it asked for |
| `EchoLimiter.ProbesAreAnswered` | internal/agent/echo_limit.go:9-13 | in every run of the bounded limiter a source that asked no more than a path-MTU search and two full udp probes is answered, through a flood of sources and a clock that steps back |
| `EchoLimiter.LimiterGuarantees` | internal/agent/echo_limit.go:43-78 | the bounded limiter itself: real probes are answered in every run, and the window bound holds on a monotone clock with safe sweeps |
| `EchoLimiter.TokensKeepUp` | internal/agent/echo_limit.go:43-63 | in every run a bucket is full or holds at least what some window leaves of its bound |
| `EchoLimiter.RefusedOnlyAtTheCap` | internal/agent/echo_limit.go:43-63 | in every run, whatever the clock and the sweeps do, a datagram is refused only when answering it would bring a window of its source above 256 + 64t |
| `EchoLimiter.AnsweredIff` | internal/agent/echo_limit.go:43-78 | on a monotone clock with safe sweeps a datagram is answered if and only if no window of its source goes above the bound |
| `EchoLimiter.EchoLimiter.Evict` | internal/agent/echo_limit.go:65-78 | idle buckets go; busy ones stay unless 3584 or more are left; nothing is altered |
| `EchoLimiter.EchoLimiter.Allow` | internal/agent/echo_limit.go:43-63 | one step of the limiter, and the bound kept; below the bound no other bucket is touched |
| `PeerFanOut.ApplyKeepsInv` | internal/controller/grpc_server.go:314-366 | every step of changes, reloads, flushes, subscriptions and deliveries keeps the convergence invariant |
| `PeerFanOut.ApplyKeepsCurrent` | internal/controller/grpc_server.go:614-706 | a step that brings the server to rest leaves every stream at the current list |
| `PeerFanOut.PushIsSafeIff` | internal/controller/grpc_server.go:627-646 | a push keeps the invariant if and only if it does not send the newest snapshot ahead of an outstanding one that differs |
| `PeerFanOut.RunKeepsInv` | internal/controller/grpc_server.go:614-706 | the invariant holds along every run |
| `PeerFanOut.EveryRunConverges` | internal/controller/controller.go:132-149 | in every run whose overlapping flushes keep the newest last: whenever nothing is under way, the last list sent or queued on every initialised, non-desynced stream holds exactly the registered agents other than its own that the plan of the registry and topology has it probe, all of them without a plan and none if the plan does not name it |
| `PeerFanOut.CanComeToRest` | internal/controller/grpc_server.go:614-706 | from every reachable state such a point can be reached without touching the registry |
| `PeerFanOut.ReloadIsTakenUp` | internal/controller/controller.go:132-149 | at rest a stored topology can be taken up, and the server comes to rest under it |
| `PeerFanOut.EveryRunKeepsInputs` | internal/controller/controller.go:132-149 | from the events alone: the registry is the last change, the topology the last one stored, and a replan is due from then until it begins |
| `PeerFanOut.StreamStep` | internal/controller/grpc_server.go:648-706 | a push adds its list behind what waits, or marks the stream when sixteen wait; the first send goes ahead; a delivery moves the oldest; nothing is lost or repeated |
| `PeerFanOut.EveryMailboxIsBounded` | internal/controller/grpc_server.go:648-706 | no mailbox ever holds more than sixteen lists |
| `PeerFanOut.OverlapOutOfOrderIsStale` | internal/controller/grpc_server.go:627-646 | a run from the start in which the newest of two overlapping flushes is pushed first leaves a stream on the older list |
| `PeerFanOut.GrpcServer.FilterPeersByPlan` | internal/controller/grpc_server.go:164-185 | exactly the entries the plan has the agent probe, each as often as it was there; the whole list when there is no plan, nothing when the plan does not name the agent |
| `PeerFanOut.GrpcServer.SetPeerPlan` | internal/controller/grpc_server.go:142-148 | takes the step that installs the plan, and keeps the invariant |
| `PeerFanOut.GrpcServer.SchedulePeerBroadcast` | internal/controller/grpc_server.go:614-625 | takes the step that schedules the registry, keeps the invariant, and asks for a timer exactly when the broadcast becomes armed |
| `PeerFanOut.GrpcServer.TakePending` | internal/controller/grpc_server.go:627-632 | takes the step that moves the newest snapshot from pending to being flushed, and keeps the invariant |
| `PeerFanOut.GrpcServer.PushTaken` | internal/controller/grpc_server.go:634-646 | takes the push step, and keeps the invariant if and only if the newest goes last |
| `PeerFanOut.GrpcServer.BroadcastPeerUpdate` | internal/controller/grpc_server.go:648-706 | every stream is offered its own list; a full mailbox marks it desynced |
| `PeerFanOut.GrpcServer.ListOf` | internal/controller/grpc_server.go:648-706 | everyone in the snapshot but the agent itself that the plan has it probe, or everyone without a plan |
| `MeshRing.BeforeIsTotal` | internal/controller/meshplan/meshplan.go:50-57 | byte order of strings is a strict total order |
| `MeshRing.BeforeIsTransitive` | internal/controller/meshplan/meshplan.go:50-57 | and transitive |
| `MeshRing.BeforeIsLexicographic` | internal/controller/meshplan/meshplan.go:50-57 | a string comes before another exactly if it is a proper prefix or has the smaller character where they first differ |
| `MeshRing.RingIsUnique` | internal/controller/meshplan/meshplan.go:50-57 | two sorted orders of the same agents are the same ring |
| `MeshRing.SortRing` | internal/controller/meshplan/meshplan.go:50-57 | the ring is a permutation of the fleet by node name, then by id |
| `MeshRing.InsertSorted` | internal/controller/meshplan/meshplan.go:50-57 | insertion keeps the ring sorted and loses nobody |
| `MeshRing.DistinctSurvives` | internal/controller/meshplan/meshplan.go:50-57 | distinct ids stay distinct in the ring |
| `MeshChords.PushBest` | internal/controller/meshplan/meshplan.go:149-162 | the bounded window holds the k top-ranked of everything seen |
| `MeshChords.BestOf` | internal/controller/meshplan/meshplan.go:117-131 | the scan finds the k best candidates of other zones |
| `MeshChords.TopIsUnique` | internal/controller/meshplan/meshplan.go:105-112 | the top k of a set are unique, so replicas draw the same chords |
| `MeshChords.FrontIsTop` | internal/controller/meshplan/meshplan.go:132-143 | skipping ring edges in the window still leaves the top chords, because the window keeps ring-degree spare entries |
| `MeshChords.PickChords` | internal/controller/meshplan/meshplan.go:132-143 | the chords taken are the top of the candidates the ring does not probe |
| `MeshChords.ChordsOf` | internal/controller/meshplan/meshplan.go:117-145 | the same for one whole agent: as many as asked for or all there are, each of higher weight, or the same weight and earlier, than any left out |
| `MeshPlan.BaseIsUnique` | internal/controller/meshplan/meshplan.go:60-82 | ring and chords of a fleet are unique |
| `MeshPlan.ReplicasAgree` | internal/controller/meshplan/meshplan.go:39-97 | replicas that hold the same agents in any order build the same plan |
| `MeshPlan.StronglyConnected` | internal/controller/meshplan/meshplan.go:69-73 | successor edges alone connect every position to every other |
| `MeshPlan.EveryZonePairIsCovered` | internal/controller/meshplan/meshplan.go:173-213 | after the repair every ordered zone pair has a probe |
| `MeshPlan.EdgesAreProbes` | internal/controller/meshplan/meshplan.go:69-82 | nobody probes itself, and what is not a ring edge crosses zones |
| `MeshPlan.ChordsAreHeaviest` | internal/controller/meshplan/meshplan.go:117-145 | a chord weighs at least as much as any agent of another zone that got none, ties by ring order |
| `MeshPlan.RepairsAreHeaviest` | internal/controller/meshplan/meshplan.go:173-224 | both ends of a repair weigh at least as much for it as any other agent of their zone |
| `MeshPlan.PlanIsStronglyConnected` | internal/controller/meshplan/meshplan.go:39-97 | with a ring degree of at least one every agent reaches every other over probes |
| `MeshPlan.PlanCoversZonePairs` | internal/controller/meshplan/meshplan.go:165-213 | every ordered pair of zones of the fleet is probed by the plan |
| `MeshPlan.PlanProbesOthers` | internal/controller/meshplan/meshplan.go:39-97 | planned peers are other agents of the fleet, and a probe that is not a ring edge crosses zones |
| `MeshPlan.PlanSize` | internal/controller/meshplan/meshplan.go:59-97 | every agent probes at least min(ringDegree, n - 1) others, and at most that many, min(zoneChords, n - 1) chords and one per other zone |
| `MeshPlan.RepairsAreFew` | internal/controller/meshplan/meshplan.go:173-224 | an agent repairs at most one probe per other zone |
| `MeshPlan.Layers` | internal/controller/meshplan/meshplan.go:69-82 | ring successors and chords of one agent |
| `MeshPlan.ArgmaxByScore` | internal/controller/meshplan/meshplan.go:216-224 | the highest weight of a zone, ties by ring order |
| `MeshPlan.RepairPair` | internal/controller/meshplan/meshplan.go:199-212 | one ordered zone pair: untouched if covered, otherwise one probe between the winners |
| `MeshPlan.ZonesOf` | internal/controller/meshplan/meshplan.go:174-185 | every zone of the fleet and no other |
| `MeshPlan.RepairZonePairs` | internal/controller/meshplan/meshplan.go:173-213 | exactly the uncovered ordered pairs get a probe |
| `MeshPlan.NamePlan` | internal/controller/meshplan/meshplan.go:85-96 | the plan by id |
| `MeshPlan.BuildBase` | internal/controller/meshplan/meshplan.go:60-82 | ring and chords of the fleet |
| `MeshPlan.Build` | internal/controller/meshplan/meshplan.go:39-97 | no plan exactly outside sparse mode or below a positive threshold, otherwise the three layers |
| `PeerSeries.MergedIsProper` | internal/agent/agent.go:868-882 | merging a proper list into the probed one gives a proper list |
| `PeerSeries.MergedKeepsNames` | internal/agent/agent.go:868-882 | the merge probes every name it was probing and every name of the new list |
| `PeerSeries.GaugeSurvives` | internal/agent/agent.go:698-728 | a gauge that survives a swap is of a peer in the new list under the same zone |
| `PeerSeries.SeriesSurvives` | internal/agent/agent.go:698-728 | a counter that survives a swap is of the new list or of a departed peer's zone |
| `PeerSeries.SwapKeepsSeries` | internal/agent/agent.go:698-749 | the swap keeps every series within the list and the departed, which stay disjoint |
| `PeerSeries.SweepKeeps` | internal/agent/agent.go:788-803 | the sweep keeps that and leaves no departed peer past its grace |
| `PeerSeries.LookUpIsExact` | internal/agent/scheduler.go:301-314 | the zone look-up finds the zone exactly when the list holds the peer under it |
| `PeerSeries.DeliveryIsExact` | internal/agent/scheduler.go:301-325 | a result is written if and only if its (peer, zone) is one of the current list; the generation is only a short cut |
| `PeerSeries.TakeListKeepsInv` | internal/agent/agent.go:858-866 | a controller list, merged or not, keeps the invariant; while rejoining no name leaves |
| `PeerSeries.EndRejoinKeepsInv` | internal/agent/agent.go:842-855 | so does the end of a rejoin |
| `PeerSeries.NextKeepsInv` | internal/agent/agent.go:698-882 | so does every step |
| `PeerSeries.RunKeepsInv` | internal/agent/agent.go:698-882 | so does every run |
| `PeerSeries.EveryRunKeepsSeries` | internal/agent/agent.go:698-803 | at every point of every run: each live counter is of a current peer or of one departed within ten minutes of the last sweep, gauges are of current peers only, and outside a rejoin the list is the newest controller list without the agent |
| `PeerSeries.EveryRunProbesTheList` | internal/agent/scheduler.go:262-290 | outside a rejoin the agent probes exactly the entries of the newest list that are not itself by id, node name or address |
| `PeerSeries.EveryProbeWasSent` | internal/agent/scheduler.go:478-555 | results can come of exactly the probes a round sent to a peer of its list |
| `PeerSeries.StepKeepsProbed` | internal/agent/agent.go:698-750 | no step takes a counter or gauge from a pair it leaves on the list |
| `PeerSeries.ProbedKeepsSeries` | internal/agent/agent.go:698-750 | in every run a counter or gauge lives on while its pair is on the list |
| `PeerSeries.StepStartsGrace` | internal/agent/agent.go:698-732 | a step that takes a probed peer off the list keeps its counters and notes the time |
| `PeerSeries.StepKeepsGrace` | internal/agent/agent.go:770-803 | no step ends the grace of a peer that is not probed again before ten minutes have passed |
| `PeerSeries.GraceIsKept` | internal/agent/agent.go:770-803 | so it is over runs |
| `PeerSeries.CountersOutliveDeparture` | internal/agent/agent.go:698-803 | in every run a counter of a peer that leaves is served for ten minutes after, unless the peer is probed again |
| `PeerSeries.NothingIsWrittenBack` | internal/agent/scheduler.go:262-325 | a late result writes a pair of the current list or changes nothing |
| `PeerSeries.RejoinOnlyAdds` | internal/agent/agent.go:824-866 | while rejoining whoever was probed still is |
| `PeerSeries.RejoinTakesInLists` | internal/agent/agent.go:858-866 | and so is whoever a list named meanwhile |
| `PeerSeries.OnlyItsTimerEndsARejoin` | internal/agent/agent.go:842-855 | a timer of an older generation never ends a newer rejoin |
| `PeerSeries.EveryRejoinEndsOnTime` | internal/agent/agent.go:833-856 | from the events alone: the agent rejoins from a beginning until the timer of the newest beginning |
| `PeerSeries.LastZoneLeavesStray` | internal/agent/agent.go:698-728 | in a state a run reaches, a list whose last entry of a name has a zone the agent does not probe leaves a stray series |
| `PeerSeries.FirstZoneLeavesStray` | internal/agent/agent.go:698-707 | the same for its first entry, in a state in which the peer was listed and left |
| `PeerSeries.TwoZonesLeaveStray` | internal/agent/agent.go:708-728 | two probed zones under one name lose one of them when the name leaves |
| `PeerSeries.ProperIsExact` | internal/agent/agent.go:698-749 | exactly the proper lists keep the series invariant in every state a run can reach |
| `PeerSeries.PlainListsAreProper` | internal/agent/scheduler.go:262-290 | distinct names, and no other node under the agent's id or address, are proper |
| `PeerSeries.Scheduler.ReplacePeers` | internal/agent/scheduler.go:262-290 | the list without the agent, the next generation and the zones by name |
| `PeerSeries.Scheduler.StillAssigned` | internal/agent/scheduler.go:301-314 | for a probe the scheduler sent: the check passes if and only if the current list holds the peer under the zone |
| `PeerSeries.MergePeers` | internal/agent/agent.go:870-882 | the new list and the old peers it does not name |
| `PeerSeries.AgentPeers.WelcomeBack` | internal/agent/agent.go:698-707 | peers that are back are no longer departed; those back elsewhere lose their old zone |
| `PeerSeries.AgentPeers.SeeOff` | internal/agent/agent.go:708-728 | peers that leave lose gauges and start their grace; peers that move lose the old zone |
| `PeerSeries.AgentPeers.ForgetDepartedPeers` | internal/agent/agent.go:698-728 | both loops together |
| `PeerSeries.AgentPeers.SweepDepartedPeers` | internal/agent/agent.go:789-803 | exactly the expired peers lose their counters |
| `PeerSeries.AgentPeers.ApplyPeers` | internal/agent/agent.go:733-749 | retire, swap, sweep and pre-create |
| `PeerSeries.AgentPeers.ApplyControllerPeers` | internal/agent/agent.go:858-866 | records the list and applies it, merged while rejoining |
| `PeerSeries.AgentPeers.BeginRejoin` | internal/agent/agent.go:833-839 | a new generation |
| `PeerSeries.AgentPeers.EndRejoin` | internal/agent/agent.go:842-855 | applies the newest list if the generation is still the one |
| `PeerSeries.AgentPeers.DeliverPeer` | internal/agent/scheduler.go:301-325 | writes the pair when still assigned |
| `ExternalAssignments.CollectKeepsInv` | internal/controller/external.go:135-163 | collecting an apply keeps agreement: every changed or marked agent has a push outstanding to all its streams |
| `ExternalAssignments.SendKeepsInv` | internal/controller/external.go:165-191 | sending a push that is harmless keeps agreement, in any order |
| `ExternalAssignments.HiddenDropBreaks` | internal/controller/external.go:174-190 | a push dropped on one stream and taken by another leaves the first behind unmarked |
| `ExternalAssignments.OvertakingBreaks` | internal/controller/external.go:165-191 | so does sending the newest push of an agent ahead of an outstanding one that says otherwise |
| `ExternalAssignments.SendIsSafeIff` | internal/controller/external.go:165-191 | a send keeps agreement if and only if it is harmless: the newest push overtakes none that says otherwise, and no drop is hidden |
| `ExternalAssignments.OneStreamHidesNothing` | internal/controller/external.go:174-190 | with one stream nothing can be hidden |
| `ExternalAssignments.NextKeepsInv` | internal/controller/external.go:68-194 | every step keeps agreement under that condition |
| `ExternalAssignments.EveryRunAgrees` | internal/controller/external.go:68-194 | so does every run of harmless sends, overlapping applies included |
| `ExternalAssignments.EveryRunKnowsItsStreams` | internal/controller/external.go:65-92 | in every run the streams of an agent are those opened and not closed since |
| `ExternalAssignments.SerialAppliesKeepTurn` | internal/controller/external.go:124-194 | applies that do not overlap keep every push in turn |
| `ExternalAssignments.OneStreamAlwaysAgrees` | internal/controller/grpc_server.go:468-494 | with one stream per agent and pushes in turn: what was last sent or queued is the record, or the agent is marked, or the push that says so is outstanding |
| `ExternalAssignments.ReapplyPushesNothing` | internal/controller/external.go:117-163 | the same desired state again, with no mark left, pushes nothing |
| `ExternalAssignments.TwoStreamsCanDisagree` | internal/controller/external.go:174-190 | a run to two streams, one full: the other takes the push, the full one is left on an old assignment, and applying the same state again does not repair it |
| `ExternalAssignments.CrossedPushesDisagree` | internal/controller/external.go:165-191 | a run with two applies at once whose pushes cross and leave the older assignment last |
| `ExternalAssignments.ApplySettlesAll` | internal/controller/external.go:124-194 | an apply that finds room in every queue leaves every stream at the record and no mark |
| `ExternalAssignments.SameSpecs` | internal/controller/external.go:245-255 | positional equality |
| `ExternalAssignments.TakeDesired` | internal/controller/external.go:136-149 | the desired specs that are new or due again, stored and pushed |
| `ExternalAssignments.DropUndesired` | internal/controller/external.go:150-157 | agents with nothing desired lose their record and get an empty push |
| `ExternalAssignments.PushMarked` | internal/controller/external.go:158-162 | marked agents that hold nothing get one too |
| `ExternalAssignments.SendOne` | internal/controller/external.go:174-181 | every stream with room takes the push, and the result says whether any did |
| `ExternalAssignments.ExternalCheckManager.Subscribe` | internal/controller/external.go:68-76 | one more stream of the agent |
| `ExternalAssignments.ExternalCheckManager.Cleanup` | internal/controller/external.go:78-90 | takes exactly that stream out |
| `ExternalAssignments.ExternalCheckManager.CollectPushes` | internal/controller/external.go:132-163 | the batch is exactly the changed or marked agents, with the new record |
| `ExternalAssignments.ExternalCheckManager.SendNext` | internal/controller/external.go:165-191 | one push and the mark if nobody took it |
| `ExternalAssignments.ExternalCheckManager.SendAll` | internal/controller/external.go:165-191 | all of them |
| `ExternalAssignments.ExternalCheckManager.Apply` | internal/controller/external.go:124-194 | a whole apply, and the number of agents pushed |
| `ExternalGauges.DedupHas` | internal/checker/external.go:175-197 | one spec per state key, all keys kept |
| `ExternalGauges.KeysTellApart` | internal/checker/external.go:541-546 | targets under definition ids are told apart by these, others by type, name, address and port, and the two kinds never meet |
| `ExternalGauges.RetiredIs` | internal/agent/agent.go:574-618 | retirement leaves exactly the gauges of checks in the incoming list |
| `ExternalGauges.ApplyIs` | internal/agent/agent.go:494-559 | after a list is applied, gauges are within what is probed if and only if every live gauge it still names survives the duplicate keys |
| `ExternalGauges.ApplyKeepsInv` | internal/agent/agent.go:494-559 | so they are when the list hides no check that the specs before it probed |
| `ExternalGauges.ReconcileKeepsInv` | internal/agent/reload.go:273-287 | moving the last assignment to a rebuilt checker keeps gauges within it when, at the new limit, it hides no check the old checker probed; switching external checks off always does |
| `ExternalGauges.RecordKeepsInv` | internal/agent/agent.go:926-945 | a late result keeps gauges within what is probed |
| `ExternalGauges.LastResultDecides` | internal/agent/agent.go:926-945 | after a sweep an assigned icmp or http check has its gauge exactly if its last result that ran was not a denial, or none ran and it had it before |
| `ExternalGauges.NextKeepsInv` | internal/agent/agent.go:494-618 | so does every step that hides nothing |
| `ExternalGauges.RunKeepsInv` | internal/agent/agent.go:494-618 | so does every run up to its first step that hides something |
| `ExternalGauges.EveryRunKeepsGauges` | internal/agent/agent.go:494-618 | as long as no list applied hid anything: outside a reload every live gauge names an assigned check; inside one a check of the replaced checker, and nothing is written |
| `ExternalGauges.HidingBreaks` | internal/agent/agent.go:548-559 | a list that hides a probed check leaves its gauge behind once everything probed has reported |
| `ExternalGauges.ApplyIsSafeIff` | internal/agent/agent.go:548-559 | a list can be applied over the old specs, whatever gauges of theirs are live, if and only if it hides nothing they probed |
| `ExternalGauges.AssignIsSafeIff` | internal/agent/agent.go:494-559 | an assignment is safe after every sequence of results if and only if, at the limit in force, it hides nothing probed |
| `ExternalGauges.ReloadIsSafeIff` | internal/agent/reload.go:273-287 | a reload is safe after every sequence of results if and only if it switches external checks off, has nothing to carry over, or carries over a list that hides nothing at the new limit |
| `ExternalGauges.EveryRunAppliesLast` | internal/agent/reload.go:273-326 | in every run, what is probed is the last assignment cut at the limit in force, without duplicate keys; switching external checks off forgets it |
| `ExternalGauges.RaisedLimitIsSafe` | internal/agent/reload.go:273-287 | in every run, a reload that does not lower maxTargets is safe whatever was assigned |
| `ExternalGauges.FaithfulHidesNothing` | internal/checker/external.go:175-197 | exactly the lists whose duplicates hide no check of the list itself hide nothing whatever was probed before |
| `ExternalGauges.FaithfulIsExact` | internal/agent/agent.go:548-559 | at a fixed limit, exactly those assignments are safe in every state reached by steps that hide nothing |
| `ExternalGauges.DistinctKeysAreFaithful` | internal/checker/external.go:541-546 | lists with distinct state keys are among them, at any limit |
| `ExternalGauges.DuplicateLeavesGauge` | internal/checker/external.go:175-197 | a run with two specs under one key: the second's gauge stays, even when the assignment is dropped |
| `ExternalGauges.LoweredLimitLeavesGauge` | internal/agent/reload.go:273-287 | a run in which a safe assignment, cut by a reload that lowers maxTargets, leaves the gauge of a check nobody probes |
| `ExternalGauges.ExternalChecker.SetSpecs` | internal/checker/external.go:175-197 | the deduplicated list; a target keeps its counts while its key stays |
| `ExternalGauges.ExternalChecker.Applied` | internal/checker/external.go:207-227 | the applied specs in order |
| `ExternalGauges.RetireDeparted` | internal/agent/agent.go:574-618 | the retirement loops |
| `ExternalGauges.Admit` | internal/agent/agent.go:502-547 | parse, drop and cut at maxTargets |
| `ExternalGauges.Agent.ApplyExternalAssignmentLocked` | internal/agent/agent.go:494-559 | parse, cut, retire, swap |
| `ExternalGauges.Agent.ApplyExternalAssignment` | internal/agent/reload.go:317-326 | ignored without a checker, recorded and applied otherwise |
| `ExternalGauges.Agent.ReconcileExternal` | internal/agent/reload.go:273-287 | retire all, or carry the last assignment over |
| `ExternalGauges.Agent.DeliverExternal` | internal/agent/agent.go:926-945 | only assigned checks are recorded; a denial drops the gauge |
| `Registry.FoldConcat` | internal/controller/registry.go:44-60 | folding events in parts |
| `Registry.FoldRemoves` | internal/controller/registry.go:173-196 | removals take out exactly the named agents |
| `Registry.FoldPlaces` | internal/controller/registry.go:142-171 | placements touch the named agents only |
| `Registry.FoldPlacesAt` | internal/controller/registry.go:142-171 | and put each where its subject says |
| `Registry.RegisterKeepsInv` | internal/controller/registry.go:102-137 | registering keeps fold and registry equal |
| `Registry.UpdateZoneKeepsInv` | internal/controller/registry.go:142-171 | so does a zone update of several agents |
| `Registry.DeregisterKeepsInv` | internal/controller/registry.go:173-199 | so does a departure |
| `Registry.EvictStaleKeepsInv` | internal/controller/registry.go:297-341 | so does an eviction of several |
| `Registry.NextKeepsInv` | internal/controller/registry.go:102-341 | so does every mutation |
| `Registry.EveryRunReplays` | internal/controller/registry.go:44-60 | after every run, folding what was published since the last quiet reset gives back each agent's node, zone and labels |
| `Registry.EveryAgentStands` | internal/controller/registry.go:102-341 | in every run the registry holds of each agent exactly what its own registration, heartbeats, zone changes, departure and eviction leave |
| `Registry.ArrivalsAreTold` | internal/controller/registry.go:102-137 | a registration and a departure are one event each with the agent as stored, heartbeats and resets none |
| `Registry.OnlyChangesAreTold` | internal/controller/registry.go:142-171 | a zone change is told of exactly the agents it changed, an eviction of exactly those it removed |
| `Registry.ListingIsUnique` | internal/controller/registry.go:366-372 | the events of a change do not depend on the order the map was walked in |
| `Registry.SortSubjectsSorts` | internal/controller/registry.go:366-372 | strictly by agent id and nothing lost |
| `Registry.SortingLists` | internal/controller/registry.go:366-372 | sorting what was collected gives the listing |
| `Registry.NewerIsStrictTotal` | internal/controller/registry.go:285-295 | the order of registrations on a node is strict and total |
| `Registry.MoveAll` | internal/controller/registry.go:142-152 | exactly the agents on the node without a zone of their own move, each with a subject |
| `Registry.RemoveStale` | internal/controller/registry.go:297-322 | exactly the stale agents leave, each with a subject |
| `Registry.AgentRegistry.Register` | internal/controller/registry.go:102-137 | stores the agent with its own zone or the resolved one and publishes it |
| `Registry.AgentRegistry.UpdateZone` | internal/controller/registry.go:142-171 | exactly the agents on the node without a zone of their own get the zone; published in id order, or nothing is |
| `Registry.AgentRegistry.Deregister` | internal/controller/registry.go:173-199 | publishes the placement the agent had |
| `Registry.AgentRegistry.EvictStale` | internal/controller/registry.go:297-341 | an agent leaves if and only if it was last seen before now - ttl; one event each in id order |
| `Registry.AgentRegistry.Heartbeat` | internal/controller/registry.go:217-230 | touches the heartbeat only |
| `Registry.AgentRegistry.ResetQuiet` | internal/controller/registry.go:204-215 | empties without publishing |
| `Registry.AgentRegistry.GetByNodeName` | internal/controller/registry.go:266-295 | the registration on the node with the latest join, then the latest heartbeat, then the greatest id, if any |
| `NodeZones.StoreKeepsInv` | internal/controller/informer.go:109-143 | storing a node keeps the invariant |
| `NodeZones.NotifyKeepsInv` | internal/controller/registry.go:142-171 | so does the notification |
| `NodeZones.ChangeKeepsInv` | internal/controller/registry.go:102-137 | so does a registration in between |
| `NodeZones.NextKeepsInv` | internal/controller/informer.go:109-166 | so does every step |
| `NodeZones.RunKeepsInv` | internal/controller/informer.go:109-166 | so does every run |
| `NodeZones.EveryRunPropagates` | internal/controller/informer.go:109-166 | a node held with a zone and no notification outstanding has that zone on every agent that did not assert its own |
| `NodeZones.EveryRunHoldsNodes` | internal/controller/informer.go:109-166 | in every run the watcher holds of each node the zone last stored, unless it was deleted since |
| `NodeZones.ExplicitStays` | internal/controller/registry.go:139-152 | an agent that asserted its zone keeps its record whatever the watcher reports |
| `NodeZones.StoreIsExact` | internal/controller/informer.go:129-143 | a node event brings all agents in line if and only if the node was known, or has a zone, or none of its agents still carries one |
| `NodeZones.LabelLostInAbsence` | internal/controller/informer.go:109-166 | a run in which a node is deleted and added again without its label leaves its agents the old zone |
| `NodeZones.RegisterAgent` | internal/controller/registry.go:102-126 | an agent without a zone of its own is stored with the one its node is held with, and both invariants stay |
| `NodeZones.NodeWatcher.OnNodeEvent` | internal/controller/informer.go:109-143 | stores the zone, and notifies exactly when it differs from the one held, none counting as empty |
| `NodeZones.NodeWatcher.OnNodeDelete` | internal/controller/informer.go:145-166 | takes the deletion step, and keeps the invariant although nobody is told |
| `NodeZones.HandleNodeEvent` | internal/controller/informer.go:109-143 | the whole handler against the registry keeps both invariants |
| `Tasks.InstallKeepsInv` | internal/controller/tasks.go:84-104 | installing under a free id keeps pending exactly the dispatches in flight |
| `Tasks.ReceiveKeepsInv` | internal/controller/tasks.go:129-134 | so does taking the outcome |
| `Tasks.CleanUpKeepsInv` | internal/controller/tasks.go:106-110 | so does the deferred clean-up |
| `Tasks.NextKeepsInv` | internal/controller/tasks.go:84-178 | so does every step |
| `Tasks.RunKeepsInv` | internal/controller/tasks.go:84-178 | so does every run |
| `Tasks.EveryRunCorrelates` | internal/controller/tasks.go:84-166 | a result returned is of the dispatched task and from the dispatched agent; pending is exactly what is in flight |
| `Tasks.StepKeepsOutcome` | internal/controller/tasks.go:159-166 | no step changes a returned answer or replaces an outcome before it is taken |
| `Tasks.OneAnswer` | internal/controller/tasks.go:84-135 | a dispatch returns at most one answer |
| `Tasks.FailAllReachesAll` | internal/controller/tasks.go:169-178 | after a demotion every dispatch in flight has an outcome waiting |
| `Tasks.FailedDispatchEnds` | internal/controller/tasks.go:169-178 | and keeps it until it takes it |
| `Tasks.EveryAnswerHasItsReason` | internal/controller/tasks.go:83-178 | in every run, from the events alone: an agent can be dispatched to exactly while it has a stream; a dispatch under way holds the first outcome that came, if any; one that is over was given that outcome, was cancelled, or had no stream to go to |
| `Tasks.LookUpFinds` | internal/controller/tasks.go:139-167 | a report finds its dispatch by task and agent while that is in flight, and nothing otherwise |
| `Tasks.ReportsWait` | internal/controller/tasks.go:139-167 | then it waits until it is deposited |
| `Tasks.AnswerComesThrough` | internal/controller/tasks.go:83-167 | a waiting dispatch without an outcome can be given any result of its task from its agent, and returns that |
| `Tasks.DispatchComesThrough` | internal/controller/tasks.go:83-137 | an agent with a stream can be dispatched to, and the dispatch then waits |
| `Tasks.CancelComesThrough` | internal/controller/tasks.go:83-137 | a dispatch under way can be cancelled at any time |
| `Tasks.InstallIsExact` | internal/controller/tasks.go:93-104 | to a subscribed agent, an install keeps the entries exact if and only if its id is free |
| `Tasks.ReusedIdIsOrphaned` | internal/controller/tasks.go:93-110 | a second dispatch under an id in flight loses its entry when the first ends |
| `Tasks.TaskManager.Begin` | internal/controller/tasks.go:93-104 | refused without a stream, installed otherwise |
| `Tasks.TaskManager.End` | internal/controller/tasks.go:106-110 | removes the entry |
| `Tasks.TaskManager.LookUpReport` | internal/controller/tasks.go:140-157 | takes the look-up step: only the dispatched agent is listened to |
| `Tasks.TaskManager.DepositReport` | internal/controller/tasks.go:159-166 | takes the deposit step: the first outcome stays |
| `Tasks.TaskManager.FailEverything` | internal/controller/tasks.go:169-178 | fills every empty slot of a pending task |
| `ReactiveTraces.KeysAreDistinct` | internal/checker/mtr.go:47-47 | one source's keys of different destinations differ |
| `ReactiveTraces.PruningIsInvisible` | internal/checker/mtr.go:43-60 | from now on the pruned map answers as the full history does |
| `ReactiveTraces.AskKeepsPruned` | internal/checker/mtr.go:43-60 | acquiring keeps that |
| `ReactiveTraces.AskKeepsStarts` | internal/checker/mtr.go:43-60 | starts of one pair stay a cooldown apart |
| `ReactiveTraces.TriggerKeepsInv` | internal/agent/scheduler.go:559-595 | a failure takes a slot or leaves everything as it is |
| `ReactiveTraces.NextKeepsInv` | internal/agent/scheduler.go:559-634 | every step keeps the bounds |
| `ReactiveTraces.RunKeepsInv` | internal/agent/scheduler.go:559-634 | so does every run |
| `ReactiveTraces.EveryRunIsBounded` | internal/agent/scheduler.go:559-634 | at most four traces at once, two of a pair a cooldown apart, and saturation changes nothing |
| `ReactiveTraces.EveryRunAnswersInFull` | internal/checker/mtr.go:43-60 | a trace starts exactly when every earlier one of its pair is a cooldown back |
| `ReactiveTraces.EveryRunReturnsSlots` | internal/agent/scheduler.go:559-630 | in every run a failed tcp, udp or icmp probe takes a slot if fewer than four are in use; it becomes a trace or is free again, and is free when the trace ends |
| `ReactiveTraces.MTRChecker.TryAcquire` | internal/checker/mtr.go:43-60 | refuses inside the cooldown and changes nothing, otherwise prunes exactly the expired and stamps |
| `ReactiveTraces.Scheduler.TakeSlot` | internal/agent/scheduler.go:573-593 | takes the failure step: a slot if one is free and the check type is traced |
| `ReactiveTraces.Scheduler.StartTrace` | internal/agent/scheduler.go:595-601 | takes the cooldown step: the trace starts, or the slot is free again |
| `ReactiveTraces.Scheduler.Finish` | internal/agent/scheduler.go:621-627 | gives the slot back |
| `Netlink.Put16Reads` | internal/checker/pmtu_route_linux.go:89-97 | sixteen-bit fields read back |
| `Netlink.Put32Reads` | internal/checker/pmtu_route_linux.go:133-165 | thirty-two-bit fields read back |
| `Netlink.Align` | internal/checker/pmtu_route_linux.go:214-216 | the next multiple of four |
| `Netlink.EncodeReads` | internal/checker/pmtu_route_linux.go:89-97 | length, type, value and remainder of an encoded attribute read back |
| `Netlink.WalkStep` | internal/checker/pmtu_route_linux.go:200-212 | a walk visits an encoded attribute and goes on behind it |
| `Netlink.WalkOfEncodings` | internal/checker/pmtu_route_linux.go:200-212 | over any concatenation, whatever follows, a walk visits exactly those attributes in order |
| `Netlink.RoundTrip` | internal/checker/pmtu_route_linux.go:89-97 | walking encodings gives back the list |
| `Netlink.RoundTripIff` | internal/checker/pmtu_route_linux.go:89-97 | one attribute comes back if and only if it has no flag bits and at most 65531 bytes |
| `Netlink.HopsRead` | internal/checker/pmtu_route_linux.go:185-193 | the devices of encoded next hops, whatever attributes they carry |
| `Netlink.ItemReads` | internal/checker/pmtu_route_linux.go:169-198 | each kind of attribute reads as what it says |
| `Netlink.RouteRoundTrip` | internal/checker/pmtu_route_linux.go:169-198 | reading a route's attributes gives its metric and devices, with other attributes in between |
| `Netlink.LastMtuWins` | internal/checker/pmtu_route_linux.go:178-184 | the last well-formed mtu metric is the one read |
| `Netlink.NoMtuKeeps` | internal/checker/pmtu_route_linux.go:178-184 | without one the metric stays |
| `Netlink.ForeignIsSkipped` | internal/checker/pmtu_route_linux.go:133-147 | messages of another exchange are passed over |
| `Netlink.ReplyRoundTrip` | internal/checker/pmtu_route_linux.go:133-165 | the route message of ours is read whatever follows |
| `Netlink.ErrorRoundTrip` | internal/checker/pmtu_route_linux.go:149-158 | an error of ours is read as the errno the kernel negated, an acknowledgement is passed over |
| `Netlink.OtherIsSkipped` | internal/checker/pmtu_route_linux.go:133-165 | other messages of ours are passed over |
| `Netlink.ShortBodyIsMalformed` | internal/checker/pmtu_route_linux.go:149-163 | an error or route too short for its header is malformed |
| `Netlink.BrokenReplies` | internal/checker/pmtu_route_linux.go:133-141 | so are bytes that do not hold the message they announce; no bytes are no route |
| `Netlink.BrokenAttributes` | internal/checker/pmtu_route_linux.go:200-212 | so is an attribute that ends beyond the bytes or before its own header |
| `Netlink.BrokenItems` | internal/checker/pmtu_route_linux.go:169-198 | so is a device, a metric or a next hop that does not fit its attribute |
| `Netlink.RouteAttr` | internal/checker/pmtu_route_linux.go:89-97 | the padding loop builds the encoding |
| `Netlink.WalkAttrs` | internal/checker/pmtu_route_linux.go:200-212 | the loop terminates within bounds on arbitrary bytes and visits the walk |
| `Netlink.ReadHops` | internal/checker/pmtu_route_linux.go:185-193 | the multipath loop |
| `Netlink.ReadMetrics` | internal/checker/pmtu_route_linux.go:178-184 | the nested walk; the last mtu metric wins |
| `Netlink.ParseRouteAttrs` | internal/checker/pmtu_route_linux.go:169-198 | the whole attribute reading, malformed input included |
| `Netlink.ParseRouteReply` | internal/checker/pmtu_route_linux.go:133-165 | the message loop: foreign, error, acknowledgement, route, malformed or none |
| `Netlink.ProbeMtu` | internal/checker/pmtu_route_linux.go:108-129 | the least positive MTU of the metric and all devices, or the reason there is none |

## Left out

- PeerFanOut.EveryRunConverges: assumes of each push the exact condition of `PeerFanOut.PushIsSafeIff`, because the source does not order overlapping flushes and the claim is false otherwise; demotion while streams stay open is not a step.
- PeerFanOut.PushIsSafeIff: a broadcast reaches all streams in one step; two overlapping broadcasts, which hold only the read lock, can reach different streams in different orders, and that interleaving is not modelled.
- ExternalAssignments.EveryRunAgrees: assumes of each push the exact condition of `ExternalAssignments.SendIsSafeIff`, and stays between two resets.
- ExternalAssignments.SendIsSafeIff: a drop and its resync mark are one step; the source sets the mark afterwards under the lock (internal/controller/external.go:182-187), so agreement is briefly false in between.
- EchoLimiter.BoundedRefinesUnbounded: token counts are reals, so rounding of the floating-point refill is not modelled.
- MeshPlan.Build: the FNV and splitmix hashes are arbitrary weight functions, and a planned peer list is a set; its final sort is not modelled.
- Netlink.RouteAttr: bytes are little-endian; a big-endian host differs only in `Put16` and `Get16`.
- ExternalGauges.EveryRunKeepsGauges: assumes of each list applied the exact condition of `ExternalGauges.AssignIsSafeIff` and `ExternalGauges.ReloadIsSafeIff`, because the claim is false otherwise.
- ExternalGauges.StateKey: the port is carried in decimal, so the number formatting is not modelled.
- PeerSeries.EveryRunKeepsSeries: the agent's own zone change (adoptZone) and the zone-level series are not modelled; a series is a (peer, zone) pair.
- Sockets, gRPC transport, TLS, tokens, netlink system calls, HTTP and DNS probing: input and output, replaced by arbitrary arguments.
- gatewaySource, the IPv6 prefix a connection is counted under: a source is an opaque string.
- ParseExternalSpec and the allowlist: an assigned spec is given as valid or refused.
- routeRequest, the request header sent to the kernel: the kernel is not modelled, so nothing reads the request back.
- Prometheus counters, histograms and label values beyond the live series and gauges named above.
- Leader election, reset on demotion and the Console's side of the event fold.
- Configuration parsing, reload of keys other than topology, external checks and the MTR checker.
- Log lines, log suppression and self metrics.
- Command-line tools, web interface, charts and generated protobuf code.
