/** The controller's peer fan-out: registry changes rebuild the probe plan and arm one trailing-edge
    flush; the flush pushes a full list into the bounded mailbox of every open stream. Peer lists come
    from map iteration, so a list is the set of its entries; an entry is what the wire carries. */
module PeerFanOut {
  import opened Options
  import MeshPlan

  datatype Peer = Peer(id: string, node: string, ip: string, zone: string, httpPort: nat, udpPort: nat)

  type Topology = MeshPlan.Topology

  /** A nil plan is the full mesh; an agent a sparse plan does not name probes no one. */
  datatype Plan = FullMesh | Sparse(peers: map<string, set<string>>)

  type Peers = set<Peer>

  const MAILBOX := 16

  predicate Allowed(plan: Plan, agent: string, id: string) {
    plan.FullMesh? || (agent in plan.peers && id in plan.peers[agent])
  }

  function Others(all: Peers, agent: string): Peers {
    set p | p in all && p.id != agent
  }

  function Filtered(peers: Peers, plan: Plan, agent: string): Peers {
    set p | p in peers && Allowed(plan, agent, p.id)
  }

  /** The list an agent should be probing. */
  function ListFor(all: Peers, plan: Plan, agent: string): Peers {
    Filtered(Others(all, agent), plan, agent)
  }

  // ---- streams ----

  /** A WatchPeers handler subscribes first, then reads the registry, then filters by the plan and
      sends; from there it pumps its mailbox. */
  datatype Phase = Subscribed | Read(peers: Peers) | Streaming

  datatype Watcher = Watcher(agent: string, phase: Phase, mailbox: seq<Peers>, sent: seq<Peers>, desynced: bool)

  /** A full mailbox is not a drop: the stream is marked and its own handler ends it. */
  function Offer(w: Watcher, list: Peers): Watcher {
    if |w.mailbox| < MAILBOX then w.(mailbox := w.mailbox + [list]) else w.(desynced := true)
  }

  function Broadcast(watchers: map<nat, Watcher>, all: Peers, plan: Plan): map<nat, Watcher> {
    map k | k in watchers :: Offer(watchers[k], ListFor(all, plan, watchers[k].agent))
  }

  /** The last list sent or queued on a stream. */
  function Last(w: Watcher): Option<Peers> {
    if w.mailbox != [] then Some(w.mailbox[|w.mailbox| - 1])
    else if w.sent != [] then Some(w.sent[|w.sent| - 1]) else None
  }

  // ---- the controller ----

  /** Where a change stands: the registry mutates first, then the plan is installed and the broadcast
      scheduled, all under one lock but visible step by step. */
  datatype Change = Settled | Mutated | Planned

  datatype Server = Server(
    registry: Peers, topology: Topology, plan: Plan, change: Change, reloading: bool,
    pending: Peers, armed: bool, flushing: seq<Peers>, watchers: map<nat, Watcher>)

  type Builder = (Peers, Topology) -> Plan

  datatype Event =
    | Mutate(registry: Peers)      // register, deregister, evict or zone update
    | StoreTopology(topology: Topology)
    | BeginReplan                  // a reload enters the registry's publication lock
    | InstallPlan
    | Schedule
    | TakeFlush                    // the timer fires: the newest snapshot is taken, the timer disarmed
    | Push(flush: nat)             // one of the taken snapshots is broadcast
    | Subscribe(stream: nat, agent: string)
    | ReadRegistry(stream: nat)
    | SendInitial(stream: nat)
    | Deliver(stream: nat)
    | End(stream: nat)

  predicate Enabled(s: Server, e: Event) {
    match e
    case Mutate(_) => s.change == Settled
    case StoreTopology(_) => !s.reloading
    case BeginReplan => s.reloading && s.change == Settled
    case InstallPlan => s.change == Mutated
    case Schedule => s.change == Planned
    case TakeFlush => s.armed
    case Push(i) => i < |s.flushing|
    case Subscribe(k, _) => k !in s.watchers
    case ReadRegistry(k) => k in s.watchers && s.watchers[k].phase == Subscribed
    case SendInitial(k) => k in s.watchers && s.watchers[k].phase.Read?
    case Deliver(k) => k in s.watchers && s.watchers[k].phase == Streaming && s.watchers[k].mailbox != []
    case End(k) => k in s.watchers
  }

  function Apply(build: Builder, s: Server, e: Event): Server
    requires Enabled(s, e)
  {
    match e
    case Mutate(registry) => s.(registry := registry, change := Mutated)
    case StoreTopology(topology) => s.(topology := topology, reloading := true)
    case BeginReplan => s.(change := Mutated, reloading := false)
    case InstallPlan => s.(plan := build(s.registry, s.topology), change := Planned)
    case Schedule => s.(pending := s.registry, armed := true, change := Settled)
    case TakeFlush => s.(flushing := s.flushing + [s.pending], pending := {}, armed := false)
    case Push(i) =>
      s.(flushing := s.flushing[..i] + s.flushing[i + 1..], watchers := Broadcast(s.watchers, s.flushing[i], s.plan))
    case Subscribe(k, agent) => s.(watchers := s.watchers[k := Watcher(agent, Subscribed, [], [], false)])
    case ReadRegistry(k) =>
      var w := s.watchers[k];
      s.(watchers := s.watchers[k := w.(phase := Read(Others(s.registry, w.agent)))])
    case SendInitial(k) =>
      var w := s.watchers[k];
      s.(watchers := s.watchers[k := w.(phase := Streaming, sent := [Filtered(w.phase.peers, s.plan, w.agent)])])
    case Deliver(k) =>
      var w := s.watchers[k];
      s.(watchers := s.watchers[k := w.(sent := w.sent + [w.mailbox[0]], mailbox := w.mailbox[1..])])
    case End(k) => s.(watchers := s.watchers - {k})
  }

  // ---- convergence ----

  /** No change is under way and no flush is due or running. */
  predicate Quiet(s: Server) {
    s.change == Settled && !s.armed && s.flushing == []
  }

  /** A stream that is not marked desynced has, or is about to send, the list of this registry and plan. */
  ghost predicate Current(s: Server, w: Watcher) {
    var list := ListFor(s.registry, s.plan, w.agent);
    w.desynced ||
    if w.mailbox != [] then w.mailbox[|w.mailbox| - 1] == list
    else match w.phase
      case Subscribed => true
      case Read(peers) => peers == Others(s.registry, w.agent)
      case Streaming => w.sent != [] && w.sent[|w.sent| - 1] == list
  }

  /** The invariant on what is due and on the plan, apart from the streams. */
  ghost predicate DueInv(build: Builder, s: Server) {
    && (s.change == Settled && s.armed ==> s.pending == s.registry)
    && (s.change == Settled && !s.armed && s.flushing != [] ==> s.flushing[|s.flushing| - 1] == s.registry)
    && (s.change != Mutated && !s.reloading ==> s.registry == {} || s.plan == build(s.registry, s.topology))
  }

  ghost predicate Inv(build: Builder, s: Server) {
    DueInv(build, s) && (Quiet(s) ==> forall k :: k in s.watchers ==> Current(s, s.watchers[k]))
  }

  function Start(topology: Topology): Server {
    Server({}, topology, FullMesh, Settled, false, {}, false, [], map[])
  }

  /** Overlapping flushes may be pushed in any order as long as the newest goes last, or the one it
      leaves behind says the same. While a change or a timer is pending it does not matter. */
  predicate NewestLast(s: Server, i: nat) {
    s.change == Settled && !s.armed && |s.flushing| > 1 && i == |s.flushing| - 1 ==> s.flushing[i - 1] == s.registry
  }

  predicate Ordered(s: Server, e: Event) {
    e.Push? ==> NewestLast(s, e.flush)
  }

  lemma ApplyKeepsDue(build: Builder, s: Server, e: Event)
    requires DueInv(build, s) && Enabled(s, e) && Ordered(s, e)
    ensures DueInv(build, Apply(build, s, e))
  {
  }

  /** A push that brings the server to rest is of the newest snapshot. */
  lemma PushKeepsCurrent(build: Builder, s: Server, i: nat, k: nat)
    requires DueInv(build, s) && i < |s.flushing| && Quiet(Apply(build, s, Push(i))) && k in s.watchers
    ensures var t := Apply(build, s, Push(i)); k in t.watchers && Current(t, t.watchers[k])
  {
    assert |s.flushing| == 1 && s.flushing == [s.registry];
    hide ListFor;
  }

  /** Being current is a matter of the registry and the plan alone. */
  lemma CurrentElsewhere(s: Server, t: Server, w: Watcher)
    requires Current(s, w) && t.registry == s.registry && t.plan == s.plan
    ensures Current(t, w)
  {
    hide ListFor, Others;
  }

  lemma DeliverKeepsCurrent(s: Server, w: Watcher)
    requires Current(s, w) && w.phase == Streaming && w.mailbox != []
    ensures Current(s, w.(sent := w.sent + [w.mailbox[0]], mailbox := w.mailbox[1..]))
  {
    hide ListFor, Others;
  }

  lemma ReadKeepsCurrent(s: Server, w: Watcher)
    requires Current(s, w) && w.phase == Subscribed
    ensures Current(s, w.(phase := Read(Others(s.registry, w.agent))))
  {
    hide ListFor, Others;
  }

  lemma InitialKeepsCurrent(s: Server, w: Watcher)
    requires Current(s, w) && w.phase.Read?
    ensures Current(s, w.(phase := Streaming, sent := [Filtered(w.phase.peers, s.plan, w.agent)]))
  {
    hide Others, Filtered;
  }

  lemma StreamKeepsCurrent(build: Builder, s: Server, e: Event, k: nat)
    requires Enabled(s, e) && (e.Subscribe? || e.ReadRegistry? || e.SendInitial? || e.Deliver? || e.End?)
    requires forall j :: j in s.watchers ==> Current(s, s.watchers[j])
    requires k in Apply(build, s, e).watchers
    ensures Current(Apply(build, s, e), Apply(build, s, e).watchers[k])
  {
    var t := Apply(build, s, e);
    if !e.Subscribe? || k != e.stream {
      hide Current, ListFor, Others, Filtered;
      if !e.End? && k == e.stream {
        match e
        case ReadRegistry(_) => ReadKeepsCurrent(s, s.watchers[k]);
        case SendInitial(_) => InitialKeepsCurrent(s, s.watchers[k]);
        case Deliver(_) => DeliverKeepsCurrent(s, s.watchers[k]);
      }
      CurrentElsewhere(s, t, t.watchers[k]);
    }
  }

  lemma ApplyKeepsCurrent(build: Builder, s: Server, e: Event, k: nat)
    requires Inv(build, s) && Enabled(s, e)
    requires Quiet(Apply(build, s, e)) && k in Apply(build, s, e).watchers
    ensures Current(Apply(build, s, e), Apply(build, s, e).watchers[k])
  {
    hide Current;
    if e.Push? {
      PushKeepsCurrent(build, s, e.flush, k);
    } else if e.StoreTopology? {
      TopologyKeepsCurrent(build, s, e.topology, k);
    } else {
      StreamKeepsCurrent(build, s, e, k);
    }
  }

  lemma TopologyKeepsCurrent(build: Builder, s: Server, topology: Topology, k: nat)
    requires !s.reloading && k in s.watchers && Current(s, s.watchers[k])
    ensures Current(Apply(build, s, StoreTopology(topology)), s.watchers[k])
  {
  }

  lemma ApplyKeepsInv(build: Builder, s: Server, e: Event)
    requires Inv(build, s) && Enabled(s, e) && Ordered(s, e)
    ensures Inv(build, Apply(build, s, e))
  {
    var s' := Apply(build, s, e);
    ApplyKeepsDue(build, s, e);
    hide Current, Apply;
    if Quiet(s') {
      forall k | k in s'.watchers ensures Current(s', s'.watchers[k]) {
        ApplyKeepsCurrent(build, s, e, k);
      }
    }
  }

  /** A push keeps the invariant if and only if it does not overtake an older snapshot that differs. */
  lemma PushIsSafeIff(build: Builder, s: Server, i: nat)
    requires Inv(build, s) && i < |s.flushing|
    ensures Inv(build, Apply(build, s, Push(i))) <==> NewestLast(s, i)
  {
    var s' := Apply(build, s, Push(i));
    if NewestLast(s, i) {
      ApplyKeepsInv(build, s, Push(i));
    } else {
      assert s'.flushing[|s'.flushing| - 1] == s.flushing[i - 1];
    }
  }

  ghost predicate IsRun(build: Builder, states: seq<Server>, events: seq<Event>) {
    && |states| == |events| + 1 && states[0] == Start(states[0].topology)
    && forall i :: 0 <= i < |events| ==>
      Enabled(states[i], events[i]) && states[i + 1] == Apply(build, states[i], events[i])
  }

  ghost predicate AllOrdered(states: seq<Server>, events: seq<Event>) {
    forall i :: 0 <= i < |events| && i < |states| ==> Ordered(states[i], events[i])
  }

  lemma {:induction false} RunKeepsInv(build: Builder, states: seq<Server>, events: seq<Event>, n: nat)
    requires IsRun(build, states, events) && AllOrdered(states, events) && n < |states|
    ensures Inv(build, states[n])
  {
    hide Inv, Ordered, Apply;
    if n == 0 {
      StartIsFine(build, states[0].topology);
    } else {
      RunKeepsInv(build, states, events, n - 1);
      ApplyKeepsInv(build, states[n - 1], events[n - 1]);
    }
  }

  /** Convergence: in every run, whenever nothing is under way, the last list sent or queued on every
      initialised stream that is not desynced holds exactly the registered agents that are not its own
      and that the plan the current registry and topology call for has it probe. */
  lemma EveryRunConverges(build: Builder, states: seq<Server>, events: seq<Event>, n: nat, k: nat)
    requires IsRun(build, states, events) && AllOrdered(states, events) && n < |states|
    requires Quiet(states[n]) && !states[n].reloading
    requires k in states[n].watchers && states[n].watchers[k].phase == Streaming && !states[n].watchers[k].desynced
    ensures
      var s, w := states[n], states[n].watchers[k];
      var plan := build(s.registry, s.topology);
      && Last(w) == Some(ListFor(s.registry, plan, w.agent))
      && forall p :: p in Last(w).value <==>
        (p in s.registry && p.id != w.agent &&
         (plan.FullMesh? || (w.agent in plan.peers && p.id in plan.peers[w.agent])))
  {
    RunKeepsInv(build, states, events, n);
    var s, w := states[n], states[n].watchers[k];
    assert Current(s, w);
    if s.registry == {} {
      assert ListFor(s.registry, s.plan, w.agent) == {} == ListFor(s.registry, build(s.registry, s.topology), w.agent);
    }
  }

  // ---- the registry and the streams, from the events alone ----

  ghost function LastRegistry(events: seq<Event>, n: nat): Peers
    requires n <= |events|
  {
    if n == 0 then {} else if events[n - 1].Mutate? then events[n - 1].registry else LastRegistry(events, n - 1)
  }

  ghost function LastTopology(events: seq<Event>, n: nat, first: Topology): Topology
    requires n <= |events|
  {
    if n == 0 then first
    else if events[n - 1].StoreTopology? then events[n - 1].topology else LastTopology(events, n - 1, first)
  }

  /** A topology was stored that no replan has taken up. */
  ghost predicate ReplanIsDue(events: seq<Event>, n: nat)
    requires n <= |events|
  {
    n > 0 && (events[n - 1].StoreTopology? || (!events[n - 1].BeginReplan? && ReplanIsDue(events, n - 1)))
  }

  /** The lists convergence speaks of are those of the last change and the last topology. */
  lemma {:induction false} EveryRunKeepsInputs(build: Builder, states: seq<Server>, events: seq<Event>, n: nat)
    requires IsRun(build, states, events) && n < |states|
    ensures states[n].registry == LastRegistry(events, n)
    ensures states[n].topology == LastTopology(events, n, states[0].topology)
    ensures states[n].reloading <==> ReplanIsDue(events, n)
  {
    hide IsRun, Apply, Enabled;
    RunBegins(build, states, events);
    if n > 0 {
      EveryRunKeepsInputs(build, states, events, n - 1);
      RunStep(build, states, events, n - 1);
      InputStep(build, states[n - 1], events[n - 1]);
    }
  }

  lemma RunBegins(build: Builder, states: seq<Server>, events: seq<Event>)
    requires IsRun(build, states, events)
    ensures |states| == |events| + 1 && states[0] == Start(states[0].topology)
  {
  }

  lemma RunStep(build: Builder, states: seq<Server>, events: seq<Event>, n: nat)
    requires IsRun(build, states, events) && n < |events|
    ensures |states| == |events| + 1 && Enabled(states[n], events[n])
    ensures states[n + 1] == Apply(build, states[n], events[n])
  {
  }

  lemma InputStep(build: Builder, s: Server, e: Event)
    requires Enabled(s, e)
    ensures Apply(build, s, e).registry == if e.Mutate? then e.registry else s.registry
    ensures Apply(build, s, e).topology == if e.StoreTopology? then e.topology else s.topology
    ensures Apply(build, s, e).reloading <==> e.StoreTopology? || (s.reloading && !e.BeginReplan?)
  {
  }

  /** All a stream was given, sent or waiting, in order. */
  function Given(w: Watcher): seq<Peers> {
    w.sent + w.mailbox
  }

  /** One step of one stream: a push adds its list at the end, or marks the stream when sixteen wait; the
      first send goes ahead of what waits; a delivery moves the oldest waiting list to the wire; nothing
      else touches it, and it is gone exactly when it ends. */
  lemma StreamStep(build: Builder, s: Server, e: Event, k: nat)
    requires Enabled(s, e) && k in s.watchers
    ensures e == End(k) <==> k !in Apply(build, s, e).watchers
    ensures e.Push? ==> var w, w' := s.watchers[k], Apply(build, s, e).watchers[k];
      if |w.mailbox| < 16
      then Given(w') == Given(w) + [ListFor(s.flushing[e.flush], s.plan, w.agent)] && w'.sent == w.sent
      else w' == w.(desynced := true)
    ensures e == SendInitial(k) ==> var w, w' := s.watchers[k], Apply(build, s, e).watchers[k];
      Given(w') == [Filtered(w.phase.peers, s.plan, w.agent)] + w.mailbox && |w'.sent| == 1
    ensures e == Deliver(k) ==> var w, w' := s.watchers[k], Apply(build, s, e).watchers[k];
      Given(w') == Given(w) && |w'.sent| == |w.sent| + 1
    ensures !e.Push? && e != End(k) && e != SendInitial(k) && e != Deliver(k) && e != ReadRegistry(k) ==>
      Apply(build, s, e).watchers[k] == s.watchers[k]
  {
    hide ListFor, Filtered, Others;
    if e.Push? {
      var w := s.watchers[k];
      var list := ListFor(s.flushing[e.flush], s.plan, w.agent);
      assert w.sent + (w.mailbox + [list]) == (w.sent + w.mailbox) + [list];
    } else if e == Deliver(k) {
      var w := s.watchers[k];
      assert w.sent + w.mailbox == (w.sent + [w.mailbox[0]]) + w.mailbox[1..];
    }
  }

  /** No mailbox ever holds more than sixteen lists. */
  lemma {:induction false} EveryMailboxIsBounded(build: Builder, states: seq<Server>, events: seq<Event>, n: nat,
                                                 k: nat)
    requires IsRun(build, states, events) && n < |states| && k in states[n].watchers
    ensures |states[n].watchers[k].mailbox| <= 16
    decreases n
  {
    hide IsRun, Apply, Enabled;
    RunBegins(build, states, events);
    if n > 0 {
      RunStep(build, states, events, n - 1);
      if k in states[n - 1].watchers {
        EveryMailboxIsBounded(build, states, events, n - 1, k);
      }
      MailboxStep(build, states[n - 1], events[n - 1], k);
    }
  }

  lemma MailboxStep(build: Builder, s: Server, e: Event, k: nat)
    requires Enabled(s, e) && k in Apply(build, s, e).watchers
    requires k in s.watchers ==> |s.watchers[k].mailbox| <= 16
    ensures |Apply(build, s, e).watchers[k].mailbox| <= 16
  {
    hide ListFor, Filtered, Others;
  }

  // ---- the theorem is not empty, and needs its order ----

  /** The state a list of events leads to, if each is enabled in turn. */
  ghost predicate Leads(build: Builder, s: Server, events: seq<Event>, s': Server)
    decreases |events|
  {
    if events == [] then s == s'
    else Enabled(s, events[0]) && Leads(build, Apply(build, s, events[0]), events[1..], s')
  }

  /** On the way no push overtakes an older snapshot that differs. */
  ghost predicate Safely(build: Builder, s: Server, events: seq<Event>)
    decreases |events|
  {
    events == [] || (Enabled(s, events[0]) ==>
      Ordered(s, events[0]) && Safely(build, Apply(build, s, events[0]), events[1..]))
  }

  lemma {:induction false} SafelyKeepsInv(build: Builder, s: Server, events: seq<Event>, s': Server)
    requires Inv(build, s) && Leads(build, s, events, s') && Safely(build, s, events)
    ensures Inv(build, s')
    decreases |events|
  {
    hide Inv, Apply, Ordered;
    if events != [] {
      ApplyKeepsInv(build, s, events[0]);
      SafelyKeepsInv(build, Apply(build, s, events[0]), events[1..], s');
    }
  }

  function Unsettled(c: Change): nat {
    match c
    case Settled => 0
    case Planned => 1
    case Mutated => 2
  }

  /** Whatever is under way can always be brought to rest without touching the registry: the pending
      change publishes, the timer fires once, and what was taken is pushed. */
  lemma {:induction false} CanComeToRest(build: Builder, s: Server) returns (events: seq<Event>, s': Server)
    requires Inv(build, s)
    ensures Leads(build, s, events, s') && Safely(build, s, events) && Inv(build, s')
    ensures Quiet(s') && s'.registry == s.registry && s'.watchers.Keys == s.watchers.Keys
    ensures s'.reloading == s.reloading && s'.topology == s.topology
    decreases Unsettled(s.change), s.armed, |s.flushing|
  {
    if Quiet(s) {
      return [], s;
    }
    var e := if s.change == Mutated then InstallPlan else if s.change == Planned then Schedule
             else if s.armed then TakeFlush else Push(0);
    ApplyKeepsInv(build, s, e);
    var next := Apply(build, s, e);
    assert next.registry == s.registry && next.watchers.Keys == s.watchers.Keys;
    assert next.reloading == s.reloading && next.topology == s.topology;
    hide Inv, Apply;
    var rest;
    rest, s' := CanComeToRest(build, next);
    events := [e] + rest;
    assert events[1..] == rest;
  }

  /** At rest, a topology that was stored can be taken up, and the server comes to rest under it. */
  lemma ReloadIsTakenUp(build: Builder, s: Server) returns (events: seq<Event>, s': Server)
    requires Inv(build, s) && Quiet(s) && s.reloading
    ensures Leads(build, s, events, s') && Safely(build, s, events) && Inv(build, s')
    ensures Quiet(s') && !s'.reloading && s'.registry == s.registry && s'.topology == s.topology
  {
    ApplyKeepsInv(build, s, BeginReplan);
    var rest;
    rest, s' := CanComeToRest(build, Apply(build, s, BeginReplan));
    events := [BeginReplan] + rest;
    assert events[1..] == rest;
  }

  lemma {:induction false} LeadsOn(build: Builder, s: Server, e1: seq<Event>, mid: Server, e2: seq<Event>, s': Server)
    requires Leads(build, s, e1, mid) && Leads(build, mid, e2, s')
    ensures Leads(build, s, e1 + e2, s')
    decreases |e1|
  {
    if e1 == [] {
      assert e1 + e2 == e2;
    } else {
      LeadsOn(build, Apply(build, s, e1[0]), e1[1..], mid, e2, s');
      assert (e1 + e2)[1..] == e1[1..] + e2;
    }
  }

  /** A published change whose flush has been taken. */
  function Taken(build: Builder, s: Server, registry: Peers): Server {
    s.(registry := registry, plan := build(registry, s.topology), pending := {}, armed := false,
       flushing := s.flushing + [registry])
  }

  lemma PublishAndTake(build: Builder, s: Server, registry: Peers)
    requires s.change == Settled
    ensures Leads(build, s, [Mutate(registry), InstallPlan, Schedule, TakeFlush], Taken(build, s, registry))
  {
    var s1 := Apply(build, s, Mutate(registry));
    var s2 := Apply(build, s1, InstallPlan);
    var s3 := Apply(build, s2, Schedule);
    var s4 := Apply(build, s3, TakeFlush);
    assert s4 == Taken(build, s, registry);
    hide Apply;
    assert Leads(build, s4, [], s4);
    assert [Schedule, TakeFlush][1..] == [TakeFlush] && [TakeFlush][1..] == [];
    assert Leads(build, s3, [TakeFlush], s4);
    assert Leads(build, s2, [Schedule, TakeFlush], s4);
    assert [InstallPlan, Schedule, TakeFlush][1..] == [Schedule, TakeFlush];
    assert Leads(build, s1, [InstallPlan, Schedule, TakeFlush], s4);
    assert [Mutate(registry), InstallPlan, Schedule, TakeFlush][1..] == [InstallPlan, Schedule, TakeFlush];
  }

  lemma PushBackwards(build: Builder, s: Server, older: Peers, newer: Peers)
    requires s.flushing == [older, newer]
    ensures Leads(build, s, [Push(1), Push(0)],
      s.(flushing := [], watchers := Broadcast(Broadcast(s.watchers, newer, s.plan), older, s.plan)))
  {
    var s1 := Apply(build, s, Push(1));
    assert s1.flushing == [older];
    assert [Push(1), Push(0)][1..] == [Push(0)] && [Push(0)][1..] == [];
    assert Leads(build, s1, [Push(0)], Apply(build, s1, Push(0)));
  }

  lemma SubscribeAndSend(build: Builder, topology: Topology)
    ensures Leads(build, Start(topology), [Subscribe(0, "x"), ReadRegistry(0), SendInitial(0)],
      Start(topology).(watchers := map[0 := Watcher("x", Streaming, [], [{}], false)]))
  {
    var s0 := Start(topology);
    var s1 := Apply(build, s0, Subscribe(0, "x"));
    var s2 := Apply(build, s1, ReadRegistry(0));
    var s3 := Apply(build, s2, SendInitial(0));
    assert Filtered(Others({}, "x"), FullMesh, "x") == {};
    assert s3 == s0.(watchers := map[0 := Watcher("x", Streaming, [], [{}], false)]);
    hide Apply;
    assert [Subscribe(0, "x"), ReadRegistry(0), SendInitial(0)][1..] == [ReadRegistry(0), SendInitial(0)];
    assert [ReadRegistry(0), SendInitial(0)][1..] == [SendInitial(0)] && [SendInitial(0)][1..] == [];
    assert Leads(build, s2, [SendInitial(0)], s3);
    assert Leads(build, s1, [ReadRegistry(0), SendInitial(0)], s3);
  }

  /** Two overlapping flushes pushed in the wrong order leave a stream on the older list with nothing
      armed to correct it. */
  lemma OverlapOutOfOrderIsStale(a: Peer, b: Peer, topology: Topology)
    returns (build: Builder, s: Server, events: seq<Event>)
    requires a != b && a.id != "x" && b.id != "x"
    ensures Leads(build, Start(topology), events, s) && Quiet(s) && !Safely(build, Start(topology), events)
    ensures 0 in s.watchers && s.watchers[0].phase == Streaming && !s.watchers[0].desynced
    ensures Last(s.watchers[0]) != Some(ListFor(s.registry, build(s.registry, s.topology), s.watchers[0].agent))
  {
    hide Leads;
    build := (_, _) => FullMesh;
    var older, newer := {a}, {a, b};
    var s0 := Start(topology);
    var s1 := s0.(watchers := map[0 := Watcher("x", Streaming, [], [{}], false)]);
    var s2 := Taken(build, s1, older);
    var s3 := Taken(build, s2, newer);
    assert s3.flushing == [older, newer];
    s := s3.(flushing := [], watchers := Broadcast(Broadcast(s3.watchers, newer, s3.plan), older, s3.plan));
    SubscribeAndSend(build, topology);
    PublishAndTake(build, s1, older);
    PublishAndTake(build, s2, newer);
    PushBackwards(build, s3, older, newer);
    var e1 := [Subscribe(0, "x"), ReadRegistry(0), SendInitial(0)];
    var e2 := [Mutate(older), InstallPlan, Schedule, TakeFlush];
    var e3 := [Mutate(newer), InstallPlan, Schedule, TakeFlush];
    var e4 := [Push(1), Push(0)];
    LeadsOn(build, s2, e3, s3, e4, s);
    LeadsOn(build, s1, e2, s2, e3 + e4, s);
    LeadsOn(build, s0, e1, s1, e2 + (e3 + e4), s);
    events := e1 + (e2 + (e3 + e4));
    assert b in ListFor(newer, FullMesh, "x") && b !in ListFor(older, FullMesh, "x");
    assert s.watchers[0].mailbox == [ListFor(newer, FullMesh, "x"), ListFor(older, FullMesh, "x")];
    assert !Current(s, s.watchers[0]);
    if Safely(build, s0, events) {
      StartIsFine(build, topology);
      SafelyKeepsInv(build, s0, events, s);
      assert false;
    }
  }

  lemma StartIsFine(build: Builder, topology: Topology)
    ensures Inv(build, Start(topology))
  {
  }

  // ---- the server's own operations ----

  function Entries(list: seq<Peer>): Peers {
    set p | p in list
  }

  lemma EntriesGrow(list: seq<Peer>, i: nat)
    requires i < |list|
    ensures Entries(list[..i + 1]) == Entries(list[..i]) + {list[i]}
  {
    assert list[..i + 1] == list[..i] + [list[i]];
  }

  class GrpcServer {
    var watchers: map<nat, Watcher>
    var peerPlan: Plan
    var pendingPeers: seq<Peer>
    var broadcastArmed: bool
    ghost var registry: Peers
    ghost var topology: Topology
    ghost var change: Change
    ghost var reloading: bool
    ghost var flushing: seq<Peers>

    constructor (ghost topology: Topology)
      ensures View() == Start(topology)
    {
      watchers, peerPlan, pendingPeers, broadcastArmed := map[], FullMesh, [], false;
      this.topology, registry, change, reloading, flushing := topology, {}, Settled, false, [];
    }

    ghost function View(): Server
      reads this
    {
      Server(registry, topology, peerPlan, change, reloading, Entries(pendingPeers), broadcastArmed, flushing, watchers)
    }

    /** filterPeersByPlan: the part of a list the plan has the agent probe, each entry as often as it was
        there; an agent a sparse plan does not name is left nobody. */
    method FilterPeersByPlan(agent: string, peers: seq<Peer>) returns (filtered: seq<Peer>)
      ensures Entries(filtered) == Filtered(Entries(peers), peerPlan, agent)
      ensures peerPlan == FullMesh ==> filtered == peers
      ensures peerPlan.Sparse? ==>
        forall p :: p in filtered ==> agent in peerPlan.peers && p.id in peerPlan.peers[agent]
      ensures peerPlan.Sparse? && agent in peerPlan.peers ==>
        forall p :: p in peers && p.id in peerPlan.peers[agent] ==> multiset(filtered)[p] == multiset(peers)[p]
    {
      if peerPlan == FullMesh {
        return peers;
      }
      filtered := [];
      for i := 0 to |peers|
        invariant Entries(filtered) == Filtered(Entries(peers[..i]), peerPlan, agent)
        invariant forall p :: p in filtered ==> agent in peerPlan.peers && p.id in peerPlan.peers[agent]
        invariant agent in peerPlan.peers ==>
          forall p: Peer :: p.id in peerPlan.peers[agent] ==> multiset(filtered)[p] == multiset(peers[..i])[p]
      {
        EntriesGrow(peers, i);
        assert peers[..i + 1] == peers[..i] + [peers[i]];
        if Allowed(peerPlan, agent, peers[i].id) {
          ghost var before := filtered;
          filtered := filtered + [peers[i]];
          assert Entries(filtered) == Entries(before) + {peers[i]};
        }
      }
      assert peers[..|peers|] == peers;
    }

    /** SetPeerPlan, with the plan the change calls for. */
    method SetPeerPlan(plan: Plan, ghost build: Builder)
      requires change == Mutated && plan == build(registry, topology)
      modifies this`peerPlan, this`change
      ensures View() == Apply(build, old(View()), InstallPlan)
      ensures old(Inv(build, View())) ==> Inv(build, View())
    {
      if old(Inv(build, View())) {
        ApplyKeepsInv(build, View(), InstallPlan);
      }
      peerPlan, change := plan, Planned;
    }

    /** SchedulePeerBroadcast of the registry a change left: the newest snapshot wins, and the caller
        starts a timer exactly when none runs, so an armed broadcast always has one. */
    method SchedulePeerBroadcast(agents: seq<Peer>, ghost build: Builder) returns (startTimer: bool)
      requires change == Planned && Entries(agents) == registry
      modifies this`pendingPeers, this`broadcastArmed, this`change
      ensures View() == Apply(build, old(View()), Schedule)
      ensures startTimer <==> View().armed && !old(View()).armed
      ensures old(Inv(build, View())) ==> Inv(build, View())
    {
      if old(Inv(build, View())) {
        ApplyKeepsInv(build, View(), Schedule);
      }
      pendingPeers := agents;
      startTimer := !broadcastArmed;
      broadcastArmed, change := true, Settled;
    }

    /** The locked half of flushPeerBroadcast: it takes what was scheduled last. */
    method TakePending(ghost build: Builder) returns (agents: seq<Peer>)
      requires broadcastArmed
      modifies this`pendingPeers, this`broadcastArmed, this`flushing
      ensures View() == Apply(build, old(View()), TakeFlush)
      ensures flushing == old(flushing) + [Entries(agents)]
      ensures old(Inv(build, View())) ==> Inv(build, View())
    {
      if old(Inv(build, View())) {
        ApplyKeepsInv(build, View(), TakeFlush);
      }
      agents := pendingPeers;
      pendingPeers, broadcastArmed, flushing := [], false, flushing + [Entries(agents)];
    }

    /** The other half: the i-th snapshot taken is pushed. */
    method PushTaken(agents: seq<Peer>, ghost i: nat, ghost build: Builder)
      requires i < |flushing| && flushing[i] == Entries(agents)
      modifies this`watchers, this`flushing
      ensures View() == Apply(build, old(View()), Push(i))
      ensures old(Inv(build, View())) ==> (Inv(build, View()) <==> NewestLast(old(View()), i))
    {
      if old(Inv(build, View())) {
        PushIsSafeIff(build, View(), i);
      }
      hide Broadcast, Inv;
      BroadcastPeerUpdate(agents);
      flushing := flushing[..i] + flushing[i + 1..];
    }

    /** BroadcastPeerUpdate: every stream is offered its own list of one snapshot under one plan. */
    method BroadcastPeerUpdate(agents: seq<Peer>)
      modifies this`watchers
      ensures watchers == Broadcast(old(watchers), Entries(agents), peerPlan)
    {
      var plan := peerPlan;
      ghost var before := watchers;
      var todo := watchers.Keys;
      while todo != {}
        invariant watchers.Keys == before.Keys && todo <= before.Keys
        invariant forall k :: k in todo ==> watchers[k] == before[k]
        invariant forall k :: k in before && k !in todo ==>
          watchers[k] == Offer(before[k], ListFor(Entries(agents), plan, before[k].agent))
        decreases todo
      {
        var k :| k in todo;
        todo := todo - {k};
        var w := watchers[k];
        var filtered := ListOf(agents, plan, w.agent);
        if |w.mailbox| < MAILBOX {
          watchers := watchers[k := w.(mailbox := w.mailbox + [filtered])];
        } else {
          watchers := watchers[k := w.(desynced := true)];
        }
      }
    }

    /** The inner loop of the broadcast: everyone in the snapshot but the agent itself, by plan. */
    method ListOf(agents: seq<Peer>, plan: Plan, agent: string) returns (filtered: Peers)
      ensures filtered == ListFor(Entries(agents), plan, agent)
      ensures forall p :: p in filtered <==>
        (p in agents && p.id != agent && (plan.FullMesh? || (agent in plan.peers && p.id in plan.peers[agent])))
    {
      filtered := {};
      for i := 0 to |agents|
        invariant filtered == ListFor(Entries(agents[..i]), plan, agent)
      {
        EntriesGrow(agents, i);
        if agents[i].id == agent {
          continue;
        }
        if plan.Sparse? && !Allowed(plan, agent, agents[i].id) {
          continue;
        }
        filtered := filtered + {agents[i]};
      }
      assert agents[..|agents|] == agents;
    }
  }
}
