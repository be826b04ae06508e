/** The controller's agent registry and the topology events it publishes: one event per agent a change is
    about, in agent-id order. The log holds what was published since the last quiet reset. */
module Registry {

  import opened Options
  import Order = MeshRing

  datatype Info = Info(id: string, node: string, zone: string, ip: string, labels: map<string, string>)

  datatype Agent = Agent(info: Info, joinedAt: int, lastSeen: int, explicit: bool)

  datatype Reason = AgentRegistered | ZoneUpdated | AgentDeregistered | AgentEvicted

  datatype Subject = Subject(id: string, node: string, zone: string, labels: map<string, string>)

  datatype TopologyEvent = TopologyEvent(reason: Reason, subject: Subject)

  datatype State = State(agents: map<string, Agent>, log: seq<TopologyEvent>)

  function SubjectOf(a: Agent): Subject {
    Subject(a.info.id, a.info.node, a.info.zone, a.info.labels)
  }

  /** One event per subject; a change about nobody is one event that names nobody. */
  function Events(reason: Reason, subjects: seq<Subject>): seq<TopologyEvent> {
    if subjects == [] then [TopologyEvent(reason, Subject("", "", "", map[]))]
    else seq(|subjects|, i requires 0 <= i < |subjects| => TopologyEvent(reason, subjects[i]))
  }

  // ---- the mutations ----

  function Enriched(info: Info, resolved: string): Info {
    if info.zone == "" then info.(zone := resolved) else info
  }

  function Register(s: State, info: Info, resolved: string, now: int): State {
    var a := Agent(Enriched(info, resolved), now, now, info.zone != "");
    State(s.agents[info.id := a], s.log + Events(AgentRegistered, [SubjectOf(a)]))
  }

  function Heartbeat(s: State, id: string, now: int): State {
    if id in s.agents then s.(agents := s.agents[id := s.agents[id].(lastSeen := now)]) else s
  }

  predicate Moves(a: Agent, node: string, zone: string) {
    a.info.node == node && !a.explicit && a.info.zone != zone
  }

  function Moving(agents: map<string, Agent>, node: string, zone: string): set<string> {
    set id | id in agents && Moves(agents[id], node, zone)
  }

  function Moved(agents: map<string, Agent>, node: string, zone: string): map<string, Agent> {
    map id | id in agents ::
      if Moves(agents[id], node, zone) then agents[id].(info := agents[id].info.(zone := zone)) else agents[id]
  }

  function Published(s: State, agents: map<string, Agent>, reason: Reason, subjects: seq<Subject>): State {
    State(agents, if subjects == [] then s.log else s.log + Events(reason, subjects))
  }

  function UpdateZone(s: State, node: string, zone: string, subjects: seq<Subject>): State {
    Published(s, Moved(s.agents, node, zone), ZoneUpdated, subjects)
  }

  function Deregister(s: State, id: string): State {
    if id in s.agents then State(s.agents - {id}, s.log + Events(AgentDeregistered, [SubjectOf(s.agents[id])])) else s
  }

  function Stale(agents: map<string, Agent>, cutoff: int): set<string> {
    set id | id in agents && agents[id].lastSeen < cutoff
  }

  function EvictStale(s: State, cutoff: int, subjects: seq<Subject>): State {
    Published(s, s.agents - Stale(s.agents, cutoff), AgentEvicted, subjects)
  }

  /** The agents ids names, with what agents says of them, strictly by id. */
  ghost predicate IsListing(subjects: seq<Subject>, agents: map<string, Agent>, ids: set<string>) {
    && (forall i, j :: 0 <= i < j < |subjects| ==> Order.Before(subjects[i].id, subjects[j].id))
    && (forall i :: 0 <= i < |subjects| ==>
      subjects[i].id in ids && subjects[i].id in agents && subjects[i] == SubjectOf(agents[subjects[i].id]))
    && (forall id :: id in ids ==> Lists(subjects, id))
  }

  ghost predicate Lists(subjects: seq<Subject>, id: string) {
    exists i :: 0 <= i < |subjects| && subjects[i].id == id
  }

  // ---- folding the events back ----

  datatype Placement = Placement(node: string, zone: string, labels: map<string, string>)

  function PlacementOf(t: Subject): Placement {
    Placement(t.node, t.zone, t.labels)
  }

  function Step(m: map<string, Placement>, e: TopologyEvent): map<string, Placement> {
    if e.reason == AgentRegistered || e.reason == ZoneUpdated then m[e.subject.id := PlacementOf(e.subject)]
    else m - {e.subject.id}
  }

  function Fold(m: map<string, Placement>, events: seq<TopologyEvent>): map<string, Placement> {
    if events == [] then m else Step(Fold(m, events[..|events| - 1]), events[|events| - 1])
  }

  function Placements(agents: map<string, Agent>): map<string, Placement> {
    map id | id in agents :: PlacementOf(SubjectOf(agents[id]))
  }

  ghost predicate Inv(s: State) {
    (forall id :: id in s.agents ==> s.agents[id].info.id == id) && Fold(map[], s.log) == Placements(s.agents)
  }

  lemma {:induction false} FoldConcat(m: map<string, Placement>, a: seq<TopologyEvent>, b: seq<TopologyEvent>)
    ensures Fold(m, a + b) == Fold(Fold(m, a), b)
    decreases |b|
  {
    if b == [] {
      assert a + b == a;
    } else {
      assert (a + b)[..|a + b| - 1] == a + b[..|b| - 1];
      FoldConcat(m, a, b[..|b| - 1]);
    }
  }

  function Ids(subjects: seq<Subject>): set<string> {
    set t | t in subjects :: t.id
  }

  lemma EventsAt(reason: Reason, subjects: seq<Subject>)
    requires subjects != []
    ensures var es := Events(reason, subjects);
      |es| == |subjects| && es[|es| - 1] == TopologyEvent(reason, subjects[|subjects| - 1])
      && (|subjects| > 1 ==> es[..|es| - 1] == Events(reason, subjects[..|subjects| - 1]))
  {
  }

  /** The fold of one change, subject by subject. */
  function FoldOf(m: map<string, Placement>, reason: Reason, subjects: seq<Subject>): map<string, Placement> {
    if subjects == [] then m
    else Step(FoldOf(m, reason, subjects[..|subjects| - 1]), TopologyEvent(reason, subjects[|subjects| - 1]))
  }

  lemma {:induction false} FoldIs(m: map<string, Placement>, reason: Reason, subjects: seq<Subject>)
    requires subjects != []
    ensures Fold(m, Events(reason, subjects)) == FoldOf(m, reason, subjects)
  {
    EventsAt(reason, subjects);
    hide Step, Events;
    var front := subjects[..|subjects| - 1];
    if front == [] {
      assert Fold(m, []) == m && FoldOf(m, reason, []) == m;
    } else {
      FoldIs(m, reason, front);
    }
  }

  lemma IdsAt(front: seq<Subject>, last: Subject)
    ensures Ids(front + [last]) == Ids(front) + {last.id}
  {
  }

  /** Folding removals takes out exactly the named agents. */
  lemma {:induction false} FoldRemoves(m: map<string, Placement>, reason: Reason, subjects: seq<Subject>)
    requires reason == AgentDeregistered || reason == AgentEvicted
    ensures FoldOf(m, reason, subjects) == m - Ids(subjects)
  {
    if subjects == [] {
      assert Ids(subjects) == {};
    } else {
      var front, last := subjects[..|subjects| - 1], subjects[|subjects| - 1];
      assert subjects == front + [last];
      IdsAt(front, last);
      FoldRemoves(m, reason, front);
      hide Ids;
    }
  }

  /** Folding placements touches the named agents only. */
  lemma {:induction false} FoldPlaces(m: map<string, Placement>, reason: Reason, subjects: seq<Subject>)
    requires reason == AgentRegistered || reason == ZoneUpdated
    ensures FoldOf(m, reason, subjects).Keys == m.Keys + Ids(subjects)
    ensures forall id :: id in m && id !in Ids(subjects) ==> FoldOf(m, reason, subjects)[id] == m[id]
  {
    if subjects == [] {
      assert Ids(subjects) == {};
    } else {
      var front, last := subjects[..|subjects| - 1], subjects[|subjects| - 1];
      assert subjects == front + [last];
      IdsAt(front, last);
      FoldPlaces(m, reason, front);
      hide Ids;
    }
  }

  /** And puts each where its subject says. */
  lemma {:induction false} FoldPlacesAt(m: map<string, Placement>, reason: Reason, subjects: seq<Subject>, i: nat)
    requires (reason == AgentRegistered || reason == ZoneUpdated) && i < |subjects|
    requires forall j, k :: 0 <= j < k < |subjects| ==> subjects[j].id != subjects[k].id
    ensures var f := FoldOf(m, reason, subjects); subjects[i].id in f && f[subjects[i].id] == PlacementOf(subjects[i])
  {
    var front := subjects[..|subjects| - 1];
    if i < |front| {
      FoldPlacesAt(m, reason, front, i);
      assert front[i] == subjects[i];
    }
  }

  // ---- every mutation keeps the log in step ----

  lemma ListingIds(subjects: seq<Subject>, agents: map<string, Agent>, ids: set<string>)
    requires IsListing(subjects, agents, ids)
    ensures Ids(subjects) == ids && (subjects == [] <==> ids == {})
    ensures forall i, j :: 0 <= i < j < |subjects| ==> subjects[i].id != subjects[j].id
  {
    forall i, j | 0 <= i < j < |subjects| ensures subjects[i].id != subjects[j].id {
      Order.BeforeIsTotal(subjects[i].id, subjects[j].id);
    }
    hide Order.Before;
    assert subjects != [] ==> subjects[0].id in ids;
    forall id | id in ids ensures id in Ids(subjects) {
      var i :| 0 <= i < |subjects| && subjects[i].id == id;
      assert subjects[i] in subjects;
    }
  }

  /** What publishing a change does to the fold. */
  lemma FoldOfPublished(s: State, agents: map<string, Agent>, reason: Reason, subjects: seq<Subject>)
    ensures Fold(map[], Published(s, agents, reason, subjects).log) == FoldOf(Fold(map[], s.log), reason, subjects)
  {
    if subjects != [] {
      FoldConcat(map[], s.log, Events(reason, subjects));
      FoldIs(Fold(map[], s.log), reason, subjects);
    }
  }

  lemma RegisterKeepsInv(s: State, info: Info, resolved: string, now: int)
    requires Inv(s)
    ensures Inv(Register(s, info, resolved, now))
  {
    var t := Register(s, info, resolved, now);
    var subjects := [SubjectOf(t.agents[info.id])];
    FoldOfPublished(s, t.agents, AgentRegistered, subjects);
    FoldPlaces(Fold(map[], s.log), AgentRegistered, subjects);
    FoldPlacesAt(Fold(map[], s.log), AgentRegistered, subjects, 0);
    hide Fold, Events, FoldOf;
    assert subjects[0].id == info.id && Ids(subjects) == {info.id};
    assert Fold(map[], t.log) == Placements(t.agents);
  }

  lemma UpdateZoneKeepsInv(s: State, node: string, zone: string, subjects: seq<Subject>)
    requires Inv(s) && IsListing(subjects, Moved(s.agents, node, zone), Moving(s.agents, node, zone))
    ensures Inv(UpdateZone(s, node, zone, subjects))
  {
    hide Fold, Events, FoldOf, Order.Before;
    var t := UpdateZone(s, node, zone, subjects);
    var ids := Moving(s.agents, node, zone);
    ListingIds(subjects, t.agents, ids);
    FoldOfPublished(s, t.agents, ZoneUpdated, subjects);
    FoldPlaces(Fold(map[], s.log), ZoneUpdated, subjects);
    hide Ids, Moves;
    forall id | id in t.agents
      ensures id in Fold(map[], t.log) && Fold(map[], t.log)[id] == PlacementOf(SubjectOf(t.agents[id]))
    {
      if id in ids {
        var i :| 0 <= i < |subjects| && subjects[i].id == id;
        FoldPlacesAt(Fold(map[], s.log), ZoneUpdated, subjects, i);
      }
    }
  }

  lemma DeregisterKeepsInv(s: State, id: string)
    requires Inv(s)
    ensures Inv(Deregister(s, id))
  {
    if id in s.agents {
      var subjects := [SubjectOf(s.agents[id])];
      FoldOfPublished(s, s.agents, AgentDeregistered, subjects);
      FoldRemoves(Fold(map[], s.log), AgentDeregistered, subjects);
      hide Fold, Events, FoldOf;
      assert Ids(subjects) == {id};
    }
  }

  lemma EvictStaleKeepsInv(s: State, cutoff: int, subjects: seq<Subject>)
    requires Inv(s) && IsListing(subjects, s.agents, Stale(s.agents, cutoff))
    ensures Inv(EvictStale(s, cutoff, subjects))
  {
    hide Fold, Events, FoldOf, Order.Before;
    ListingIds(subjects, s.agents, Stale(s.agents, cutoff));
    FoldOfPublished(s, s.agents - Stale(s.agents, cutoff), AgentEvicted, subjects);
    FoldRemoves(Fold(map[], s.log), AgentEvicted, subjects);
    hide Ids, IsListing;
  }

  // ---- runs ----

  datatype Op =
    | Registered(info: Info, resolved: string, now: int)
    | Beat(id: string, now: int)
    | ZoneSet(node: string, zone: string, subjects: seq<Subject>)
    | Left(id: string)
    | Swept(cutoff: int, subjects: seq<Subject>)
    | Reset

  ghost predicate Enabled(s: State, op: Op) {
    && (op.ZoneSet? ==> IsListing(op.subjects, Moved(s.agents, op.node, op.zone), Moving(s.agents, op.node, op.zone)))
    && (op.Swept? ==> IsListing(op.subjects, s.agents, Stale(s.agents, op.cutoff)))
  }

  function Next(s: State, op: Op): State {
    match op
    case Registered(info, resolved, now) => Register(s, info, resolved, now)
    case Beat(id, now) => Heartbeat(s, id, now)
    case ZoneSet(node, zone, subjects) => UpdateZone(s, node, zone, subjects)
    case Left(id) => Deregister(s, id)
    case Swept(cutoff, subjects) => EvictStale(s, cutoff, subjects)
    case Reset => State(map[], [])
  }

  lemma HeartbeatKeepsInv(s: State, id: string, now: int)
    requires Inv(s)
    ensures Inv(Heartbeat(s, id, now))
  {
    assert Placements(Heartbeat(s, id, now).agents) == Placements(s.agents);
  }

  lemma NextKeepsInv(s: State, op: Op)
    requires Inv(s) && Enabled(s, op)
    ensures Inv(Next(s, op))
  {
    match op
    case Registered(info, resolved, now) => RegisterKeepsInv(s, info, resolved, now);
    case Beat(id, now) => HeartbeatKeepsInv(s, id, now);
    case ZoneSet(node, zone, subjects) => UpdateZoneKeepsInv(s, node, zone, subjects);
    case Left(id) => DeregisterKeepsInv(s, id);
    case Swept(cutoff, subjects) => EvictStaleKeepsInv(s, cutoff, subjects);
    case Reset =>
  }

  ghost predicate IsRun(ops: seq<Op>, states: seq<State>) {
    && |states| == |ops| + 1 && states[0] == State(map[], [])
    && forall i :: 0 <= i < |ops| ==> Enabled(states[i], ops[i]) && states[i + 1] == Next(states[i], ops[i])
  }

  /** After every run, folding what was published since the last reset gives back the registry. */
  lemma {:induction false} EveryRunReplays(ops: seq<Op>, states: seq<State>, k: nat)
    requires IsRun(ops, states) && k < |states|
    ensures Inv(states[k]) && Fold(map[], states[k].log) == Placements(states[k].agents)
    decreases k
  {
    if k > 0 {
      EveryRunReplays(ops, states, k - 1);
      assert states[k - 1 + 1] == Next(states[k - 1], ops[k - 1]);
      hide Next, Enabled, Fold;
      NextKeepsInv(states[k - 1], ops[k - 1]);
    }
  }

  // ---- one agent at a time ----

  /** What the operations so far leave of one agent: the last registration that still stands, with the
      heartbeats and the zone changes since. */
  ghost function Standing(ops: seq<Op>, n: nat, id: string): Option<Agent>
    requires n <= |ops|
  {
    if n == 0 then None
    else
      var a := Standing(ops, n - 1, id);
      match ops[n - 1]
      case Registered(info, resolved, now) =>
        if info.id != id then a
        else if info.zone == "" then Some(Agent(info.(zone := resolved), now, now, false))
        else Some(Agent(info, now, now, true))
      case Beat(other, now) => if other == id && a.Some? then Some(a.value.(lastSeen := now)) else a
      case Left(other) => if other == id then None else a
      case ZoneSet(node, zone, subjects) =>
        if a.Some? && a.value.info.node == node && !a.value.explicit then
          Some(a.value.(info := a.value.info.(zone := zone)))
        else a
      case Swept(cutoff, subjects) => if a.Some? && a.value.lastSeen < cutoff then None else a
      case Reset => None
  }

  ghost predicate Stands(agents: map<string, Agent>, id: string, a: Option<Agent>) {
    if id in agents then a == Some(agents[id]) else a == None
  }

  /** In every run the registry holds of each agent exactly what its own operations leave. */
  lemma {:induction false} EveryAgentStands(ops: seq<Op>, states: seq<State>, k: nat, id: string)
    requires IsRun(ops, states) && k < |states|
    ensures Stands(states[k].agents, id, Standing(ops, k, id))
    decreases k
  {
    hide Events, IsListing, Fold;
    if k > 0 {
      EveryAgentStands(ops, states, k - 1, id);
      assert states[k - 1 + 1] == Next(states[k - 1], ops[k - 1]);
    }
  }

  /** A registration and a departure are one event each, with the agent as it is stored or was; a
      heartbeat and a reset are none. */
  lemma ArrivalsAreTold(s: State, op: Op)
    ensures op.Registered? ==> op.info.id in Next(s, op).agents
    ensures op.Registered? ==> var a := Next(s, op).agents[op.info.id].info;
      Next(s, op).log == s.log + [TopologyEvent(AgentRegistered, Subject(a.id, a.node, a.zone, a.labels))]
    ensures op.Left? && op.id in s.agents ==> var a := s.agents[op.id].info;
      Next(s, op).log == s.log + [TopologyEvent(AgentDeregistered, Subject(a.id, a.node, a.zone, a.labels))]
    ensures op.Left? && op.id !in s.agents ==> Next(s, op) == s
    ensures op.Beat? ==> Next(s, op).log == s.log
    ensures op.Reset? ==> Next(s, op).log == []
  {
  }

  /** A zone change is told of exactly the agents it changed, an eviction of exactly those it removed. */
  lemma OnlyChangesAreTold(s: State, op: Op, id: string)
    requires Enabled(s, op) && (op.ZoneSet? || op.Swept?) && id in s.agents
    ensures Lists(op.subjects, id) <==> id !in Next(s, op).agents || Next(s, op).agents[id] != s.agents[id]
    ensures Next(s, op).log == if op.subjects == [] then s.log
      else s.log + Events(if op.ZoneSet? then ZoneUpdated else AgentEvicted, op.subjects)
  {
    hide Events;
    assert Lists(op.subjects, id) ==>
      id in if op.ZoneSet? then Moving(s.agents, op.node, op.zone) else Stale(s.agents, op.cutoff);
  }

  /** The events of a change do not depend on the order the map was walked in. */
  lemma {:induction false} ListingIsUnique(a: seq<Subject>, b: seq<Subject>, agents: map<string, Agent>,
                                           ids: set<string>)
    requires IsListing(a, agents, ids) && IsListing(b, agents, ids)
    ensures a == b
    decreases |a|
  {
    if a == [] || b == [] {
      assert a != [] ==> Lists(b, a[0].id);
      assert b != [] ==> Lists(a, b[0].id);
    } else {
      var x, y := a[|a| - 1], b[|b| - 1];
      LastIsGreatest(a, agents, ids, y.id);
      LastIsGreatest(b, agents, ids, x.id);
      Order.BeforeIsTotal(x.id, y.id);
      FrontLists(a, agents, ids);
      FrontLists(b, agents, ids);
      ListingIsUnique(a[..|a| - 1], b[..|b| - 1], agents, ids - {x.id});
      assert a == a[..|a| - 1] + [x] && b == b[..|b| - 1] + [y];
    }
  }

  lemma LastIsGreatest(a: seq<Subject>, agents: map<string, Agent>, ids: set<string>, id: string)
    requires IsListing(a, agents, ids) && id in ids && a != []
    ensures id == a[|a| - 1].id || Order.Before(id, a[|a| - 1].id)
  {
    assert Lists(a, id);
  }

  lemma FrontLists(a: seq<Subject>, agents: map<string, Agent>, ids: set<string>)
    requires IsListing(a, agents, ids) && a != []
    ensures IsListing(a[..|a| - 1], agents, ids - {a[|a| - 1].id})
  {
    var front, last := a[..|a| - 1], a[|a| - 1];
    forall i | 0 <= i < |front| ensures front[i].id != last.id {
      Order.BeforeIsTotal(front[i].id, last.id);
    }
    forall id | id in ids - {last.id} ensures Lists(front, id) {
      assert Lists(a, id);
      var i :| 0 <= i < |a| && a[i].id == id;
      assert front[i].id == id;
    }
  }

  // ---- one agent per node ----

  /** newerRegistration: latest join, then latest heartbeat, then id. */
  predicate Newer(a: Agent, b: Agent) {
    if a.joinedAt != b.joinedAt then a.joinedAt > b.joinedAt
    else if a.lastSeen != b.lastSeen then a.lastSeen > b.lastSeen
    else Order.Before(b.info.id, a.info.id)
  }

  lemma NewerIsStrictTotal(a: Agent, b: Agent, c: Agent)
    ensures a.info.id != b.info.id ==> Newer(a, b) || Newer(b, a)
    ensures !(Newer(a, b) && Newer(b, a))
    ensures Newer(a, b) && Newer(b, c) ==> Newer(a, c)
  {
    Order.BeforeIsTotal(a.info.id, b.info.id);
    if Order.Before(b.info.id, a.info.id) && Order.Before(c.info.id, b.info.id) {
      Order.BeforeIsTransitive(c.info.id, b.info.id, a.info.id);
    }
  }

  lemma NewerMeans(a: Agent, b: Agent)
    requires Newer(a, b)
    ensures
      || a.joinedAt > b.joinedAt
      || (a.joinedAt == b.joinedAt && a.lastSeen > b.lastSeen)
      || (a.joinedAt == b.joinedAt && a.lastSeen == b.lastSeen && Order.Before(b.info.id, a.info.id))
  {
  }

  // ---- collecting and sorting ----

  /** Subjects of exactly these agents, in any order. */
  ghost predicate Collects(subjects: seq<Subject>, agents: map<string, Agent>, ids: set<string>) {
    && (forall i, j :: 0 <= i < j < |subjects| ==> subjects[i].id != subjects[j].id)
    && (forall t :: t in subjects ==> t.id in ids && t.id in agents && t == SubjectOf(agents[t.id]))
    && (forall id :: id in ids ==> Lists(subjects, id))
  }

  lemma CollectsMore(subjects: seq<Subject>, agents: map<string, Agent>, ids: set<string>, id: string)
    requires Collects(subjects, agents, ids) && id !in ids && id in agents && agents[id].info.id == id
    ensures Collects(subjects + [SubjectOf(agents[id])], agents, ids + {id})
  {
    var more := subjects + [SubjectOf(agents[id])];
    assert forall i :: 0 <= i < |subjects| ==> subjects[i] in subjects;
    forall other | other in ids + {id} ensures Lists(more, other) {
      if other == id {
        assert more[|subjects|].id == id;
      } else {
        var i :| 0 <= i < |subjects| && subjects[i].id == other;
        assert more[i].id == other;
      }
    }
  }

  function Insert(sorted: seq<Subject>, x: Subject): seq<Subject> {
    if sorted == [] then [x]
    else if Order.Before(x.id, sorted[0].id) then [x] + sorted
    else [sorted[0]] + Insert(sorted[1..], x)
  }

  function SortSubjects(subjects: seq<Subject>): seq<Subject> {
    if subjects == [] then [] else Insert(SortSubjects(subjects[..|subjects| - 1]), subjects[|subjects| - 1])
  }

  ghost predicate StrictlySorted(subjects: seq<Subject>) {
    forall i, j :: 0 <= i < j < |subjects| ==> Order.Before(subjects[i].id, subjects[j].id)
  }

  lemma {:induction false} InsertKeepsSorted(sorted: seq<Subject>, x: Subject)
    requires StrictlySorted(sorted) && forall i :: 0 <= i < |sorted| ==> sorted[i].id != x.id
    ensures StrictlySorted(Insert(sorted, x)) && multiset(Insert(sorted, x)) == multiset(sorted) + multiset{x}
  {
    if sorted != [] {
      var head, rest := sorted[0], sorted[1..];
      assert sorted == [head] + rest;
      Order.BeforeIsTotal(x.id, head.id);
      if Order.Before(x.id, head.id) {
        forall i | 0 <= i < |rest| ensures Order.Before(x.id, rest[i].id) {
          assert rest[i] == sorted[i + 1];
          Order.BeforeIsTransitive(x.id, head.id, rest[i].id);
        }
      } else {
        InsertKeepsSorted(rest, x);
        HeadStaysFirst(head, rest, x);
      }
    }
  }

  lemma HeadStaysFirst(head: Subject, rest: seq<Subject>, x: Subject)
    requires StrictlySorted([head] + rest) && StrictlySorted(Insert(rest, x)) && Order.Before(head.id, x.id)
    requires multiset(Insert(rest, x)) == multiset(rest) + multiset{x}
    ensures StrictlySorted([head] + Insert(rest, x))
  {
    hide Order.Before, Insert;
    var all, before := Insert(rest, x), [head] + rest;
    forall i | 0 <= i < |all| ensures Order.Before(head.id, all[i].id) {
      assert all[i] in multiset(all);
      if all[i] != x {
        assert all[i] in multiset(rest);
        var j :| 0 <= j < |rest| && rest[j] == all[i];
        assert Order.Before(before[0].id, before[j + 1].id);
      }
    }
  }

  lemma {:induction false} SortSubjectsSorts(subjects: seq<Subject>)
    requires forall i, j :: 0 <= i < j < |subjects| ==> subjects[i].id != subjects[j].id
    ensures StrictlySorted(SortSubjects(subjects)) && multiset(SortSubjects(subjects)) == multiset(subjects)
  {
    if subjects != [] {
      var front, last := subjects[..|subjects| - 1], subjects[|subjects| - 1];
      assert subjects == front + [last];
      SortSubjectsSorts(front);
      var sorted := SortSubjects(front);
      hide StrictlySorted;
      forall i | 0 <= i < |sorted| ensures sorted[i].id != last.id {
        assert sorted[i] in multiset(front);
        var j :| 0 <= j < |front| && front[j] == sorted[i];
        assert subjects[j] == front[j];
      }
      InsertKeepsSorted(sorted, last);
    }
  }

  /** Sorting a collection gives the listing. */
  lemma SortingLists(subjects: seq<Subject>, agents: map<string, Agent>, ids: set<string>)
    requires Collects(subjects, agents, ids)
    ensures IsListing(SortSubjects(subjects), agents, ids)
  {
    SortSubjectsSorts(subjects);
    var sorted := SortSubjects(subjects);
    forall i | 0 <= i < |sorted| ensures sorted[i] in subjects {
      assert sorted[i] in multiset(subjects);
    }
    forall id | id in ids ensures Lists(sorted, id) {
      var i :| 0 <= i < |subjects| && subjects[i].id == id;
      assert subjects[i] in multiset(sorted);
    }
  }

  /** The agents once those seen have moved. */
  function MovedSoFar(agents: map<string, Agent>, node: string, zone: string, seen: set<string>): map<string, Agent> {
    map id | id in agents :: if id in seen then Moved(agents, node, zone)[id] else agents[id]
  }

  method MoveAll(agents: map<string, Agent>, node: string, zone: string)
    returns (after: map<string, Agent>, subjects: seq<Subject>)
    requires forall id :: id in agents ==> agents[id].info.id == id
    ensures after == Moved(agents, node, zone) && Collects(subjects, after, Moving(agents, node, zone))
  {
    ghost var goal := Moved(agents, node, zone);
    after, subjects := agents, [];
    var left := agents.Keys;
    ghost var seen: set<string> := {};
    while left != {}
      invariant left !! seen && left + seen == agents.Keys
      invariant after == MovedSoFar(agents, node, zone, seen)
      invariant Collects(subjects, goal, Moving(agents, node, zone) * seen)
      decreases left
    {
      hide Collects;
      var id :| id in left;
      if Moves(after[id], node, zone) {
        after := after[id := after[id].(info := after[id].info.(zone := zone))];
        CollectsMore(subjects, goal, Moving(agents, node, zone) * seen, id);
        assert Moving(agents, node, zone) * seen + {id} == Moving(agents, node, zone) * (seen + {id});
        subjects := subjects + [SubjectOf(after[id])];
      } else {
        assert Moving(agents, node, zone) * seen == Moving(agents, node, zone) * (seen + {id});
      }
      left, seen := left - {id}, seen + {id};
    }
    assert Moving(agents, node, zone) * seen == Moving(agents, node, zone);
  }

  method RemoveStale(agents: map<string, Agent>, cutoff: int)
    returns (after: map<string, Agent>, subjects: seq<Subject>)
    requires forall id :: id in agents ==> agents[id].info.id == id
    ensures after == agents - Stale(agents, cutoff) && Collects(subjects, agents, Stale(agents, cutoff))
  {
    after, subjects := agents, [];
    var left := agents.Keys;
    ghost var seen: set<string> := {};
    while left != {}
      invariant left !! seen && left + seen == agents.Keys
      invariant after == agents - (Stale(agents, cutoff) * seen)
      invariant Collects(subjects, agents, Stale(agents, cutoff) * seen)
      decreases left
    {
      hide Collects;
      var id :| id in left;
      if agents[id].lastSeen < cutoff {
        CollectsMore(subjects, agents, Stale(agents, cutoff) * seen, id);
        assert Stale(agents, cutoff) * seen + {id} == Stale(agents, cutoff) * (seen + {id});
        subjects, after := subjects + [SubjectOf(agents[id])], after - {id};
      } else {
        assert Stale(agents, cutoff) * seen == Stale(agents, cutoff) * (seen + {id});
      }
      left, seen := left - {id}, seen + {id};
    }
    assert Stale(agents, cutoff) * seen == Stale(agents, cutoff);
  }

  /** t is s after a zone update, and after a sweep that took out n agents, with their sorted events. */
  ghost predicate MovedTo(s: State, node: string, zone: string, t: State) {
    exists subjects :: Enabled(s, ZoneSet(node, zone, subjects)) && t == Next(s, ZoneSet(node, zone, subjects))
  }

  ghost predicate SweptTo(s: State, cutoff: int, n: nat, t: State) {
    exists subjects :: |subjects| == n && Enabled(s, Swept(cutoff, subjects)) && t == Next(s, Swept(cutoff, subjects))
  }

  lemma MovedIs(agents: map<string, Agent>, node: string, zone: string)
    ensures Moved(agents, node, zone).Keys == agents.Keys
    ensures forall id :: id in agents ==>
      Moved(agents, node, zone)[id] == if agents[id].info.node == node && !agents[id].explicit
        then agents[id].(info := agents[id].info.(zone := zone)) else agents[id]
  {
  }

  lemma StaleIs(agents: map<string, Agent>, cutoff: int)
    ensures forall id :: id in Stale(agents, cutoff) <==> id in agents && agents[id].lastSeen < cutoff
  {
  }

  lemma MovedWitness(s: State, node: string, zone: string, subjects: seq<Subject>)
    requires IsListing(subjects, Moved(s.agents, node, zone), Moving(s.agents, node, zone))
    ensures MovedTo(s, node, zone, UpdateZone(s, node, zone, subjects))
  {
    hide IsListing, UpdateZone;
    var op := ZoneSet(node, zone, subjects);
    assert Enabled(s, op) && Next(s, op) == UpdateZone(s, node, zone, subjects);
  }

  lemma SweptWitness(s: State, cutoff: int, subjects: seq<Subject>)
    requires IsListing(subjects, s.agents, Stale(s.agents, cutoff))
    ensures SweptTo(s, cutoff, |subjects|, EvictStale(s, cutoff, subjects))
  {
    hide IsListing, EvictStale;
    assert Enabled(s, Swept(cutoff, subjects)) && Next(s, Swept(cutoff, subjects)) == EvictStale(s, cutoff, subjects);
  }

  class AgentRegistry {
    var agents: map<string, Agent>
    var ttl: int
    var log: seq<TopologyEvent>

    constructor (ttl: int)
      ensures this.ttl == ttl && View() == State(map[], []) && Inv(View())
    {
      agents, this.ttl, log := map[], ttl, [];
    }

    ghost function View(): State
      reads this
    {
      State(agents, log)
    }

    /** resolved is what the zone resolver answers for the agent's node. */
    method Register(info: Info, resolved: string, now: int) returns (stored: Info)
      requires Inv(View())
      modifies this`agents, this`log
      ensures Inv(View()) && View() == Next(old(View()), Registered(info, resolved, now))
      ensures info.id in agents && agents[info.id] == Agent(stored, now, now, info.zone != "")
      ensures stored == if info.zone != "" then info else info.(zone := resolved)
    {
      RegisterKeepsInv(View(), info, resolved, now);
      stored := info;
      var explicit := info.zone != "";
      if !explicit {
        stored := stored.(zone := resolved);
      }
      var a := Agent(stored, now, now, explicit);
      agents, log := agents[info.id := a], log + Events(AgentRegistered, [SubjectOf(a)]);
    }

    method UpdateZone(node: string, zone: string)
      requires Inv(View())
      modifies this`agents, this`log
      ensures MovedTo(old(View()), node, zone, View())
      ensures agents.Keys == old(agents).Keys && forall id :: id in agents ==>
        agents[id] == if old(agents)[id].info.node == node && !old(agents)[id].explicit
                      then old(agents)[id].(info := old(agents)[id].info.(zone := zone)) else old(agents)[id]
      ensures Inv(View())
    {
      hide IsListing, Collects, SortSubjects, Moved, Moving, Events, MovedTo, Fold, Placements;
      ghost var s := View();
      var after, subjects := MoveAll(agents, node, zone);
      SortingLists(subjects, after, Moving(agents, node, zone));
      subjects := SortSubjects(subjects);
      UpdateZoneKeepsInv(s, node, zone, subjects);
      agents := after;
      if |subjects| > 0 {
        log := log + Events(ZoneUpdated, subjects);
      }
      MovedWitness(s, node, zone, subjects);
      MovedIs(s.agents, node, zone);
    }

    method Deregister(id: string)
      requires Inv(View())
      modifies this`agents, this`log
      ensures Inv(View()) && View() == Next(old(View()), Left(id))
    {
      DeregisterKeepsInv(View(), id);
      if id in agents {
        agents, log := agents - {id}, log + Events(AgentDeregistered, [SubjectOf(agents[id])]);
      }
    }

    method EvictStale(now: int) returns (evicted: nat)
      requires Inv(View())
      modifies this`agents, this`log
      ensures SweptTo(old(View()), now - ttl, evicted, View())
      ensures forall id :: id in agents <==> id in old(agents) && !(old(agents)[id].lastSeen < now - ttl)
      ensures forall id :: id in agents ==> agents[id] == old(agents)[id]
      ensures Inv(View())
    {
      hide IsListing, Collects, SortSubjects, Stale, Events, SweptTo, Fold, Placements;
      ghost var s := View();
      var after, subjects := RemoveStale(agents, now - ttl);
      SortingLists(subjects, agents, Stale(agents, now - ttl));
      subjects := SortSubjects(subjects);
      EvictStaleKeepsInv(s, now - ttl, subjects);
      agents, evicted := after, |subjects|;
      if evicted > 0 {
        log := log + Events(AgentEvicted, subjects);
      }
      SweptWitness(s, now - ttl, subjects);
      StaleIs(s.agents, now - ttl);
    }

    method Heartbeat(id: string, now: int) returns (known: bool)
      requires Inv(View())
      modifies this`agents
      ensures Inv(View()) && View() == Next(old(View()), Beat(id, now)) && known == (id in old(agents))
      ensures known ==> id in agents && agents[id] == old(agents)[id].(lastSeen := now)
    {
      HeartbeatKeepsInv(View(), id, now);
      known := id in agents;
      if known {
        agents := agents[id := agents[id].(lastSeen := now)];
      }
    }

    method ResetQuiet()
      modifies this`agents, this`log
      ensures View() == Next(old(View()), Reset)
    {
      agents, log := map[], [];
    }

    /** The newest registration on the node, whatever order the map is walked in. */
    method GetByNodeName(node: string) returns (found: bool, best: string)
      requires Inv(View())
      ensures found <==> exists id :: id in agents && agents[id].info.node == node
      ensures found ==> best in agents && agents[best].info.node == node
      ensures found ==> forall id :: id in agents && agents[id].info.node == node && id != best ==>
        var a, b := agents[best], agents[id];
        || a.joinedAt > b.joinedAt
        || (a.joinedAt == b.joinedAt && a.lastSeen > b.lastSeen)
        || (a.joinedAt == b.joinedAt && a.lastSeen == b.lastSeen && Order.Before(id, best))
    {
      hide Newer, Fold;
      found, best := false, "";
      var left := agents.Keys;
      while left != {}
        invariant left <= agents.Keys
        invariant found ==> best in agents - left && agents[best].info.node == node
        invariant !found ==> forall id :: id in agents && id !in left ==> agents[id].info.node != node
        invariant found ==> forall id :: id in agents && id !in left && agents[id].info.node == node && id != best ==>
          Newer(agents[best], agents[id])
        decreases left
      {
        var id :| id in left;
        left := left - {id};
        if agents[id].info.node == node {
          if found {
            NewerIsStrictTotal(agents[id], agents[best], agents[best]);
            forall other | other in agents
              ensures Newer(agents[id], agents[best]) && Newer(agents[best], agents[other]) ==>
                Newer(agents[id], agents[other])
            {
              NewerIsStrictTotal(agents[id], agents[best], agents[other]);
            }
          }
          if !found || Newer(agents[id], agents[best]) {
            found, best := true, id;
          }
        }
      }
      forall id | found && id in agents && Newer(agents[best], agents[id])
        ensures var a, b := agents[best], agents[id];
          || a.joinedAt > b.joinedAt
          || (a.joinedAt == b.joinedAt && a.lastSeen > b.lastSeen)
          || (a.joinedAt == b.joinedAt && a.lastSeen == b.lastSeen && Order.Before(id, best))
      {
        NewerMeans(agents[best], agents[id]);
      }
    }
  }
}
