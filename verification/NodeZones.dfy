/** Node zones reaching the registry: the node watcher stores a node's zone and then, as a step of its own,
    tells the registry; agents register in between. The handlers of one informer run one after another, so
    at most one notification is outstanding. */
module NodeZones {
  import opened Options
  import R = Registry

  datatype Note = Note(node: string, zone: string)

  datatype State = State(reg: R.State, nodes: map<string, string>, due: Option<Note>)

  function ZoneFor(nodes: map<string, string>, node: string): string {
    if node in nodes then nodes[node] else ""
  }

  /** The zone of a node first seen with one, or seen with another one, is a change. */
  predicate ZoneChanges(nodes: map<string, string>, node: string, zone: string) {
    (node !in nodes && zone != "") || (node in nodes && nodes[node] != zone)
  }

  function Store(s: State, node: string, zone: string): State {
    s.(nodes := s.nodes[node := zone],
       due := if ZoneChanges(s.nodes, node, zone) then Some(Note(node, zone)) else None)
  }

  function Notify(s: State, subjects: seq<R.Subject>): State
    requires s.due.Some?
  {
    s.(reg := R.UpdateZone(s.reg, s.due.value.node, s.due.value.zone, subjects), due := None)
  }

  datatype Event =
    | Stored(node: string, zone: string)
    | Notified(subjects: seq<R.Subject>)
    | Deleted(node: string)
    | Changed(op: R.Op)

  /** An agent that registers gets the zone the watcher holds at that moment. */
  ghost predicate Enabled(s: State, e: Event) {
    match e
    case Stored(node, zone) => s.due.None?
    case Notified(subjects) => s.due.Some? && R.Enabled(s.reg, R.ZoneSet(s.due.value.node, s.due.value.zone, subjects))
    case Deleted(node) => s.due.None?
    case Changed(op) => !op.ZoneSet? && R.Enabled(s.reg, op) && (op.Registered? ==>
      op.resolved == ZoneFor(s.nodes, op.info.node))
  }

  function Next(s: State, e: Event): State
    requires e.Notified? ==> s.due.Some?
  {
    match e
    case Stored(node, zone) => Store(s, node, zone)
    case Notified(subjects) => Notify(s, subjects)
    case Deleted(node) => s.(nodes := s.nodes - {node})
    case Changed(op) => s.(reg := R.Next(s.reg, op))
  }

  // ---- the invariant ----

  /** An agent that did not assert a zone carries the one its node is held with. */
  ghost predicate Carries(s: State, id: string)
    requires id in s.reg.agents
  {
    var a := s.reg.agents[id];
    !a.explicit && a.info.node in s.nodes ==> a.info.zone == s.nodes[a.info.node]
  }

  ghost predicate Pending(s: State, node: string) {
    s.due.Some? && s.due.value.node == node
  }

  ghost predicate Held(s: State, node: string) {
    ZoneFor(s.nodes, node) != "" && !Pending(s, node)
  }

  ghost predicate SamePlace(a: R.Agent, b: R.Agent) {
    a.info == b.info && a.explicit == b.explicit
  }

  /** For nodes held with a zone, unless the node's notification is still to come. */
  ghost predicate Inv(s: State) {
    && (forall id :: id in s.reg.agents && Held(s, s.reg.agents[id].info.node) ==> Carries(s, id))
    && (s.due.Some? ==> s.due.value.node in s.nodes && s.nodes[s.due.value.node] == s.due.value.zone)
  }

  lemma StoreKeepsInv(s: State, node: string, zone: string)
    requires Inv(s) && s.due.None?
    ensures Inv(Store(s, node, zone))
  {
    var t := Store(s, node, zone);
    forall id | id in t.reg.agents && Held(t, t.reg.agents[id].info.node) ensures Carries(t, id) {
      assert ZoneFor(s.nodes, s.reg.agents[id].info.node) != "" ==> Carries(s, id);
    }
  }

  lemma NotifyKeepsInv(s: State, subjects: seq<R.Subject>)
    requires Inv(s) && s.due.Some?
    ensures Inv(Notify(s, subjects)) && Notify(s, subjects).due.None?
  {
    var t := Notify(s, subjects);
    forall id | id in t.reg.agents && Held(t, t.reg.agents[id].info.node) ensures Carries(t, id) {
      assert s.reg.agents[id].info.node != s.due.value.node ==> Carries(s, id);
    }
  }

  lemma ChangeKeepsInv(s: State, op: R.Op)
    requires Inv(s) && Enabled(s, Changed(op))
    ensures Inv(s.(reg := R.Next(s.reg, op)))
  {
    var t := s.(reg := R.Next(s.reg, op));
    hide R.IsListing, R.Events;
    forall id | id in t.reg.agents && Held(t, t.reg.agents[id].info.node) ensures Carries(t, id) {
      assert id in s.reg.agents && SamePlace(t.reg.agents[id], s.reg.agents[id]) ==> Carries(s, id);
    }
  }

  lemma NextKeepsInv(s: State, e: Event)
    requires Inv(s) && Enabled(s, e)
    ensures Inv(Next(s, e))
  {
    match e
    case Stored(node, zone) => StoreKeepsInv(s, node, zone);
    case Notified(subjects) => NotifyKeepsInv(s, subjects);
    case Deleted(node) =>
      assert forall id :: id in s.reg.agents && Carries(s, id) ==> Carries(Next(s, e), id);
    case Changed(op) => ChangeKeepsInv(s, op);
  }

  /** The registry starts empty; the nodes are those the watcher already knows. */
  ghost predicate IsRun(events: seq<Event>, states: seq<State>) {
    && |states| == |events| + 1 && states[0].reg == R.State(map[], []) && states[0].due.None?
    && forall i :: 0 <= i < |events| ==> Enabled(states[i], events[i]) && states[i + 1] == Next(states[i], events[i])
  }

  lemma {:induction false} RunKeepsInv(events: seq<Event>, states: seq<State>, k: nat)
    requires IsRun(events, states) && k < |states|
    ensures Inv(states[k])
    decreases k
  {
    if k > 0 {
      RunKeepsInv(events, states, k - 1);
      assert states[k - 1 + 1] == Next(states[k - 1], events[k - 1]);
      hide Inv, Next, R.IsListing;
      NextKeepsInv(states[k - 1], events[k - 1]);
    }
  }

  /** At every point of every run: a node held with a zone and no notification outstanding has that zone
      on every agent that did not assert its own. */
  lemma EveryRunPropagates(events: seq<Event>, states: seq<State>, k: nat, node: string, id: string)
    requires IsRun(events, states) && k < |states|
    requires node in states[k].nodes && states[k].nodes[node] != "" && !Pending(states[k], node)
    requires id in states[k].reg.agents && states[k].reg.agents[id].info.node == node
    requires !states[k].reg.agents[id].explicit
    ensures states[k].reg.agents[id].info.zone == states[k].nodes[node]
  {
    RunKeepsInv(events, states, k);
    assert Carries(states[k], id);
  }

  /** What is done to the agent itself, or to all. */
  predicate Touches(op: R.Op, id: string) {
    match op
    case Registered(info, resolved, now) => info.id == id
    case Beat(other, now) => other == id
    case Left(other) => other == id
    case ZoneSet(node, zone, subjects) => false
    case Swept(cutoff, subjects) => true
    case Reset => true
  }

  /** An agent that asserted its zone keeps its whole record whatever the watcher reports. */
  lemma {:induction false} ExplicitStays(events: seq<Event>, states: seq<State>, i: nat, j: nat, id: string)
    requires IsRun(events, states) && i <= j < |states|
    requires id in states[i].reg.agents && states[i].reg.agents[id].explicit
    requires forall k :: i <= k < j && k < |events| && events[k].Changed? ==> !Touches(events[k].op, id)
    ensures id in states[j].reg.agents && states[j].reg.agents[id] == states[i].reg.agents[id]
    decreases j
  {
    if i < j {
      ExplicitStays(events, states, i, j - 1, id);
      assert states[j - 1 + 1] == Next(states[j - 1], events[j - 1]);
    }
  }

  /** The zone a node was last stored with, unless it was deleted since; first is what was known before. */
  ghost function LastStored(events: seq<Event>, n: nat, first: map<string, string>, node: string): Option<string>
    requires n <= |events|
  {
    if n == 0 then if node in first then Some(first[node]) else None
    else
      var before := LastStored(events, n - 1, first, node);
      match events[n - 1]
      case Stored(other, zone) => if other == node then Some(zone) else before
      case Deleted(other) => if other == node then None else before
      case _ => before
  }

  /** In every run the watcher holds exactly what it was told of each node. */
  lemma {:induction false} EveryRunHoldsNodes(events: seq<Event>, states: seq<State>, n: nat, node: string)
    requires IsRun(events, states) && n < |states|
    ensures LastStored(events, n, states[0].nodes, node) ==
      if node in states[n].nodes then Some(states[n].nodes[node]) else None
    decreases n
  {
    if n > 0 {
      EveryRunHoldsNodes(events, states, n - 1, node);
      assert states[n - 1 + 1] == Next(states[n - 1], events[n - 1]);
      hide R.IsListing, R.Enabled;
    }
  }

  // ---- nodes held without a zone ----

  /** Every agent of every held node agrees with it, zone or no zone. */
  ghost predicate AllCarry(s: State) {
    forall id :: id in s.reg.agents ==> Carries(s, id)
  }

  function Settled(s: State, subjects: seq<R.Subject>): State {
    if s.due.Some? then Notify(s, subjects) else s
  }

  /** A node event, with the notification it causes, brings all agents in line exactly when the node was
      known, or has a zone, or no agent on it still carries one from before. */
  lemma StoreIsExact(s: State, node: string, zone: string, subjects: seq<R.Subject>)
    requires AllCarry(s) && s.due.None?
    ensures AllCarry(Settled(Store(s, node, zone), subjects)) <==>
      node in s.nodes || zone != "" ||
      forall id :: id in s.reg.agents && s.reg.agents[id].info.node == node && !s.reg.agents[id].explicit ==>
        s.reg.agents[id].info.zone == ""
  {
    var t := Settled(Store(s, node, zone), subjects);
    if node in s.nodes || zone != "" {
      forall id | id in t.reg.agents ensures Carries(t, id) {
        assert Carries(s, id);
      }
    } else {
      assert t.reg == s.reg && t.nodes == s.nodes[node := ""];
      forall id | id in t.reg.agents ensures Carries(t, id) <==>
        (s.reg.agents[id].info.node == node && !s.reg.agents[id].explicit ==> s.reg.agents[id].info.zone == "")
      {
        assert Carries(s, id);
      }
    }
  }

  /** A run in which a node is deleted and added again without its label: its agents keep the zone it
      had, and nothing is left to tell them. */
  lemma LabelLostInAbsence(a: R.Info, zone: string, now: int) returns (events: seq<Event>, states: seq<State>)
    requires a.zone == "" && zone != ""
    ensures IsRun(events, states) && |events| == 3 && AllCarry(states[1])
    ensures events[1..] == [Deleted(a.node), Stored(a.node, "")] && states[1].nodes == map[a.node := zone]
    ensures var t := states[3];
      && t.due.None? && a.node in t.nodes && t.nodes[a.node] == ""
      && a.id in t.reg.agents && t.reg.agents[a.id].info == a.(zone := zone) && !AllCarry(t)
  {
    events := [Changed(R.Registered(a, zone, now)), Deleted(a.node), Stored(a.node, "")];
    var s0 := State(R.State(map[], []), map[a.node := zone], None);
    var s1 := Next(s0, events[0]);
    var s2 := Next(s1, events[1]);
    states := [s0, s1, s2, Next(s2, events[2])];
    assert !Carries(states[3], a.id);
  }

  // ---- the object ----

  class NodeWatcher {
    var nodes: map<string, string>

    constructor ()
      ensures nodes == map[]
    {
      nodes := map[];
    }

    method ZoneOf(node: string) returns (zone: string)
      ensures zone == ZoneFor(nodes, node)
    {
      zone := if node in nodes then nodes[node] else "";
    }

    /** The handler's first step; note is what its second step reports. */
    method OnNodeEvent(node: string, zone: string, ghost reg: R.State) returns (note: Option<Note>)
      modifies this
      ensures State(reg, nodes, note) == Store(State(reg, old(nodes), None), node, zone)
      ensures note.Some? <==> zone != if node in old(nodes) then old(nodes)[node] else ""
      ensures note.Some? ==> note.value == Note(node, zone)
    {
      var existed := node in nodes;
      var prev := if existed then nodes[node] else "";
      nodes := nodes[node := zone];
      var changed := (!existed && zone != "") || (existed && prev != zone);
      note := if changed then Some(Note(node, zone)) else None;
    }

    /** A deleted node is forgotten and nobody is told: its agents keep their zone. */
    method OnNodeDelete(node: string, ghost reg: R.State)
      modifies this
      ensures State(reg, nodes, None) == Next(State(reg, old(nodes), None), Deleted(node))
      ensures nodes == old(nodes) - {node}
      ensures Inv(State(reg, old(nodes), None)) ==> Inv(State(reg, nodes, None))
    {
      if Inv(State(reg, nodes, None)) {
        NextKeepsInv(State(reg, nodes, None), Deleted(node));
      }
      nodes := nodes - {node};
    }
  }

  /** A registration reads the zone the watcher holds: an agent without a zone of its own is stored with
      it, and both invariants stay. */
  method RegisterAgent(watcher: NodeWatcher, registry: R.AgentRegistry, info: R.Info, now: int, ghost due: Option<Note>)
    returns (stored: R.Info)
    requires R.Inv(registry.View()) && Inv(State(registry.View(), watcher.nodes, due))
    modifies registry`agents, registry`log
    ensures R.Inv(registry.View()) && Inv(State(registry.View(), watcher.nodes, due))
    ensures info.id in registry.agents && registry.agents[info.id].info == stored
    ensures stored == if info.zone != "" then info else info.(zone := ZoneFor(watcher.nodes, info.node))
  {
    ghost var s := State(registry.View(), watcher.nodes, due);
    var zone := watcher.ZoneOf(info.node);
    ChangeKeepsInv(s, R.Registered(info, zone, now));
    stored := registry.Register(info, zone, now);
    hide R.Inv, Inv, R.Events;
  }

  /** The whole handler against the registry: the node's agents carry its zone when it returns, if the
      node was known or has a zone. */
  method HandleNodeEvent(watcher: NodeWatcher, registry: R.AgentRegistry, node: string, zone: string)
    requires R.Inv(registry.View()) && Inv(State(registry.View(), watcher.nodes, None))
    modifies watcher, registry`agents, registry`log
    ensures R.Inv(registry.View()) && Inv(State(registry.View(), watcher.nodes, None))
    ensures watcher.nodes == old(watcher.nodes)[node := zone]
  {
    ghost var s := State(registry.View(), watcher.nodes, None);
    var note := watcher.OnNodeEvent(node, zone, registry.View());
    StoreKeepsInv(s, node, zone);
    if note.Some? {
      ghost var t := State(registry.View(), watcher.nodes, note);
      registry.UpdateZone(note.value.node, note.value.zone);
      hide R.Inv, R.IsListing, Store, Inv;
      ghost var subjects :| R.Enabled(t.reg, R.ZoneSet(note.value.node, note.value.zone, subjects))
        && registry.View() == R.Next(t.reg, R.ZoneSet(note.value.node, note.value.zone, subjects));
      NotifyKeepsInv(t, subjects);
    }
  }
}
