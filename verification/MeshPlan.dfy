/** The sparse probe mesh: a ring, cross-zone chords and zone-pair repair over the same agents. Agents
    are ring positions while the plan is built and ids in the plan itself. The random weights are any
    functions of the ids, so the results hold whatever the hash does. */
module MeshPlan {
  import opened Options
  import opened MeshRing
  import opened MeshChords

  datatype Topology = Topology(sparse: bool, ringDegree: nat, zoneChords: nat, autoThreshold: int)

  /** The weight of an ordered pair of agents, and of an agent for repairing an ordered zone pair. */
  datatype Hrw = Hrw(pair: (string, string) -> nat, repair: (string, string, string) -> nat)

  type Adj = seq<set<nat>>

  type Plan = map<string, set<string>>

  // ---- the three layers ----

  predicate FullMesh(t: Topology, n: nat) {
    !t.sparse || (t.autoThreshold > 0 && n < t.autoThreshold)
  }

  function Capped(want: nat, n: nat): nat {
    if n == 0 then 0 else if want < n - 1 then want else n - 1
  }

  /** The successors on the ring. */
  function Successors(n: nat, i: nat, degree: nat): set<nat>
    requires i < n
  {
    if degree == 0 then {} else Successors(n, i, degree - 1) + {(i + degree) % n}
  }

  function OtherZones(ring: seq<Agent>, i: nat): set<nat>
    requires i < |ring|
  {
    set j: nat | j < |ring| && ring[j].zone != ring[i].zone
  }

  function PairScore(hrw: Hrw, ring: seq<Agent>, i: nat, j: nat): nat {
    if i < |ring| && j < |ring| then hrw.pair(ring[i].id, ring[j].id) else 0
  }

  function RepairScore(hrw: Hrw, ring: seq<Agent>, from: string, to: string, j: nat): nat {
    if j < |ring| then hrw.repair(from, to, ring[j].id) else 0
  }

  function PairWeight(hrw: Hrw, ring: seq<Agent>, i: nat): Weight
    requires i < |ring|
  {
    (j: nat) => PairScore(hrw, ring, i, j)
  }

  /** Ring and chords: the chords are the top candidates of other zones the ring does not probe. */
  ghost predicate IsBase(hrw: Hrw, ring: seq<Agent>, degree: nat, chords: nat, adj: Adj) {
    && |adj| == |ring|
    && forall i :: 0 <= i < |ring| ==> HasLayers(hrw, ring, degree, chords, i, adj[i])
  }

  ghost predicate HasLayers(hrw: Hrw, ring: seq<Agent>, degree: nat, chords: nat, i: nat, peers: set<nat>)
    requires i < |ring|
  {
    var succ := Successors(|ring|, i, degree);
    exists picked ::
      IsTop(PairWeight(hrw, ring, i), picked, OtherZones(ring, i) - succ, chords) && peers == succ + picked
  }

  predicate Covered(ring: seq<Agent>, adj: Adj, from: string, to: string)
    requires |adj| == |ring|
  {
    exists i, j :: 0 <= i < |ring| && 0 <= j < |ring| && j in adj[i] && ring[i].zone == from && ring[j].zone == to
  }

  function RepairWeight(hrw: Hrw, ring: seq<Agent>, from: string, to: string): Weight {
    (j: nat) => RepairScore(hrw, ring, from, to, j)
  }

  ghost predicate Winner(f: Weight, ring: seq<Agent>, zone: string, i: nat) {
    && i < |ring| && ring[i].zone == zone
    && forall x: nat :: x < |ring| && ring[x].zone == zone && x != i ==> Beats(f, i, x)
  }

  /** The repair probe from i to j: theirs is an uncovered pair of zones and both are its winners. */
  ghost predicate Repairs(hrw: Hrw, ring: seq<Agent>, adj: Adj, i: nat, j: nat)
    requires |adj| == |ring|
  {
    && i < |ring| && j < |ring| && ring[i].zone != ring[j].zone
    && !Covered(ring, adj, ring[i].zone, ring[j].zone)
    && Winner(RepairWeight(hrw, ring, ring[i].zone, ring[j].zone), ring, ring[i].zone, i)
    && Winner(RepairWeight(hrw, ring, ring[i].zone, ring[j].zone), ring, ring[j].zone, j)
  }

  ghost function RepairPeers(hrw: Hrw, ring: seq<Agent>, adj: Adj, i: nat): set<nat>
    requires |adj| == |ring|
  {
    set j: nat | j < |ring| && Repairs(hrw, ring, adj, i, j)
  }

  ghost predicate IsRepaired(hrw: Hrw, ring: seq<Agent>, base: Adj, adj: Adj) {
    && |base| == |ring| == |adj|
    && forall i :: 0 <= i < |ring| ==> adj[i] == base[i] + RepairPeers(hrw, ring, base, i)
  }

  function Ids(ring: seq<Agent>, peers: set<nat>): set<string> {
    set j | j in peers && j < |ring| :: ring[j].id
  }

  /** The plan by id. */
  ghost predicate IsNamed(ring: seq<Agent>, adj: Adj, plan: Plan) {
    && |adj| == |ring|
    && (forall id :: id in plan <==> exists i :: 0 <= i < |ring| && ring[i].id == id)
    && (forall i :: 0 <= i < |ring| ==> ring[i].id in plan && plan[ring[i].id] == Ids(ring, adj[i]))
  }

  /** What Build returns: no plan (full mesh), or the named, repaired graph over the fleet's ring. */
  ghost predicate IsPlan(hrw: Hrw, t: Topology, agents: seq<Agent>, plan: Option<Plan>) {
    if FullMesh(t, |agents|) then plan == None
    else plan.Some? && exists ring, base, adj :: Stages(hrw, t, agents, ring, base, adj, plan.value)
  }

  ghost predicate Stages(hrw: Hrw, t: Topology, agents: seq<Agent>, ring: seq<Agent>, base: Adj, adj: Adj, plan: Plan) {
    && IsRing(agents, ring)
    && IsBase(hrw, ring, Capped(t.ringDegree, |ring|), Capped(t.zoneChords, |ring|), base)
    && IsRepaired(hrw, ring, base, adj) && IsNamed(ring, adj, plan)
  }

  // ---- replicas agree ----

  lemma BaseIsUnique(hrw: Hrw, ring: seq<Agent>, degree: nat, chords: nat, a: Adj, b: Adj)
    requires IsBase(hrw, ring, degree, chords, a) && IsBase(hrw, ring, degree, chords, b)
    ensures a == b
  {
    forall i | 0 <= i < |ring| ensures a[i] == b[i] {
      var succ := Successors(|ring|, i, degree);
      var f := PairWeight(hrw, ring, i);
      assert HasLayers(hrw, ring, degree, chords, i, a[i]) && HasLayers(hrw, ring, degree, chords, i, b[i]);
      var p :| IsTop(f, p, OtherZones(ring, i) - succ, chords) && a[i] == succ + p;
      var q :| IsTop(f, q, OtherZones(ring, i) - succ, chords) && b[i] == succ + q;
      TopIsUnique(f, p, q, OtherZones(ring, i) - succ, chords);
    }
  }

  /** Replicas that hold the same agents, in whatever order, build the same plan. */
  lemma ReplicasAgree(hrw: Hrw, t: Topology, agents1: seq<Agent>, agents2: seq<Agent>, p1: Option<Plan>,
                      p2: Option<Plan>)
    requires multiset(agents1) == multiset(agents2)
    requires IsPlan(hrw, t, agents1, p1) && IsPlan(hrw, t, agents2, p2)
    ensures p1 == p2
  {
    assert |agents1| == |multiset(agents1)| == |agents2|;
    hide IsRing, IsBase, IsRepaired, IsNamed;
    if !FullMesh(t, |agents1|) {
      var r1: seq<Agent>, b1: Adj, a1: Adj :| Stages(hrw, t, agents1, r1, b1, a1, p1.value);
      var r2: seq<Agent>, b2: Adj, a2: Adj :| Stages(hrw, t, agents2, r2, b2, a2, p2.value);
      SameRing(agents1, agents2, r1, r2);
      BaseIsUnique(hrw, r1, Capped(t.ringDegree, |r1|), Capped(t.zoneChords, |r1|), b1, b2);
      SameNames(hrw, r1, b1, a1, a2, p1.value, p2.value);
    }
  }

  lemma SameRing(agents1: seq<Agent>, agents2: seq<Agent>, r1: seq<Agent>, r2: seq<Agent>)
    requires IsRing(agents1, r1) && IsRing(agents2, r2) && multiset(agents1) == multiset(agents2)
    ensures r1 == r2
  {
    RingIsUnique(r1, r2);
  }

  lemma SameNames(hrw: Hrw, ring: seq<Agent>, base: Adj, a: Adj, b: Adj, p: Plan, q: Plan)
    requires IsRepaired(hrw, ring, base, a) && IsRepaired(hrw, ring, base, b)
    requires IsNamed(ring, a, p) && IsNamed(ring, b, q)
    ensures p == q
  {
    assert a == b;
    assert p.Keys == q.Keys;
    forall id | id in p ensures p[id] == q[id] {
      var i :| 0 <= i < |ring| && ring[i].id == id;
    }
  }

  // ---- what the mesh guarantees ----

  lemma {:induction false} SuccessorsAre(n: nat, i: nat, degree: nat)
    requires i < n && degree < n
    ensures |Successors(n, i, degree)| == degree
    ensures forall j :: j in Successors(n, i, degree) ==> j < n && j != i
    ensures forall d :: 1 <= d <= degree ==> Step(n, i, d) in Successors(n, i, degree)
  {
    if degree > 0 {
      SuccessorsAre(n, i, degree - 1);
      WrapAround(n, i, degree);
      NotYetReached(n, i, degree - 1, degree);
    }
  }

  lemma {:induction false} NotYetReached(n: nat, i: nat, degree: nat, d: nat)
    requires i < n && degree < d < n
    ensures Step(n, i, d) !in Successors(n, i, degree)
  {
    if degree > 0 {
      NotYetReached(n, i, degree - 1, d);
      WrapAround(n, i, degree);
    }
  }

  /** The ring position d places after i. */
  function Step(n: nat, i: nat, d: nat): nat
    requires i < n && d < n
  {
    if i + d < n then i + d else i + d - n
  }

  lemma WrapAround(n: nat, i: nat, d: nat)
    requires i < n && d < n
    ensures Step(n, i, d) == (i + d) % n
  {
    var a, q := i + d, (i + d) / n;
    assert a == q * n + a % n;
    assert (q >= 2 ==> q * n >= 2 * n) && (q <= 0 ==> q * n <= 0);
  }

  /** A probe path through the graph. */
  ghost predicate IsPath(adj: Adj, path: seq<nat>) {
    && path != []
    && (forall k :: 0 <= k < |path| ==> path[k] < |adj|)
    && forall k :: 0 <= k < |path| - 1 ==> path[k + 1] in adj[path[k]]
  }

  ghost predicate RingInside(adj: Adj, degree: nat) {
    forall i :: 0 <= i < |adj| ==> Successors(|adj|, i, degree) <= adj[i]
  }

  /** With any ring at all, every agent reaches every other over probes. */
  lemma {:induction false} RingConnects(adj: Adj, degree: nat, i: nat, d: nat) returns (path: seq<nat>)
    requires RingInside(adj, degree) && 1 <= degree < |adj| && i < |adj| && d < |adj|
    ensures IsPath(adj, path) && path[0] == i && path[|path| - 1] == Step(|adj|, i, d)
  {
    if d == 0 {
      path := [i];
    } else {
      path := RingConnects(adj, degree, i, d - 1);
      var last := path[|path| - 1];
      SuccessorsAre(|adj|, last, degree);
      hide Successors;
      assert Step(|adj|, last, 1) in adj[last];
      path := path + [Step(|adj|, i, d)];
    }
  }

  lemma StronglyConnected(adj: Adj, degree: nat, i: nat, j: nat) returns (path: seq<nat>)
    requires RingInside(adj, degree) && 1 <= degree < |adj| && i < |adj| && j < |adj|
    ensures IsPath(adj, path) && path[0] == i && path[|path| - 1] == j
  {
    path := RingConnects(adj, degree, i, if i <= j then j - i else |adj| - i + j);
  }

  lemma {:induction false} SomeoneWins(f: Weight, ring: seq<Agent>, zone: string, n: nat) returns (i: nat)
    requires n <= |ring| && exists x :: 0 <= x < n && ring[x].zone == zone
    ensures i < n && ring[i].zone == zone
    ensures forall x: nat :: x < n && ring[x].zone == zone && x != i ==> Beats(f, i, x)
  {
    if exists x :: 0 <= x < n - 1 && ring[x].zone == zone {
      i := SomeoneWins(f, ring, zone, n - 1);
      if ring[n - 1].zone == zone && Beats(f, n - 1, i) {
        i := n - 1;
      }
    } else {
      i := n - 1;
    }
  }

  /** Every ordered pair of zones in the fleet has a probe. */
  lemma EveryZonePairIsCovered(hrw: Hrw, ring: seq<Agent>, base: Adj, adj: Adj, a: nat, b: nat)
    requires IsRepaired(hrw, ring, base, adj) && a < |ring| && b < |ring| && ring[a].zone != ring[b].zone
    ensures |adj| == |ring| && Covered(ring, adj, ring[a].zone, ring[b].zone)
  {
    var from, to := ring[a].zone, ring[b].zone;
    if Covered(ring, base, from, to) {
      var i, j :| 0 <= i < |ring| && 0 <= j < |ring| && j in base[i] && ring[i].zone == from && ring[j].zone == to;
      assert j in adj[i];
    } else {
      var f := RepairWeight(hrw, ring, from, to);
      var i := SomeoneWins(f, ring, from, |ring|);
      var j := SomeoneWins(f, ring, to, |ring|);
      assert Winner(f, ring, from, i) && Winner(f, ring, to, j);
      assert Repairs(hrw, ring, base, i, j);
      assert j in adj[i];
    }
  }

  /** Agents are probed only by others, and whatever is not a ring edge crosses zones. */
  lemma EdgesAreProbes(hrw: Hrw, ring: seq<Agent>, degree: nat, chords: nat, base: Adj, adj: Adj, i: nat, j: nat)
    requires IsBase(hrw, ring, degree, chords, base) && IsRepaired(hrw, ring, base, adj)
    requires degree < |ring| && i < |ring| && j in adj[i]
    ensures j < |ring| && j != i
    ensures j in Successors(|ring|, i, degree) || ring[j].zone != ring[i].zone
  {
    hide Winner, Covered, IsTop, PairWeight, Successors;
    SuccessorsAre(|ring|, i, degree);
    assert HasLayers(hrw, ring, degree, chords, i, base[i]);
    LayersAreOthers(hrw, ring, degree, chords, i, base[i]);
    hide HasLayers;
    assert j in base[i] || Repairs(hrw, ring, base, i, j);
  }

  lemma LayersAreOthers(hrw: Hrw, ring: seq<Agent>, degree: nat, chords: nat, i: nat, peers: set<nat>)
    requires i < |ring| && HasLayers(hrw, ring, degree, chords, i, peers)
    ensures forall j :: j in peers ==>
      j in Successors(|ring|, i, degree) || (j < |ring| && ring[j].zone != ring[i].zone)
  {
    hide Successors, PairWeight;
  }

  /** A chord weighs at least as much as any agent of another zone that got none. */
  lemma ChordsAreHeaviest(hrw: Hrw, ring: seq<Agent>, degree: nat, chords: nat, base: Adj, i: nat, b: nat, c: nat)
    requires IsBase(hrw, ring, degree, chords, base) && i < |ring| && b < |ring| && c < |ring|
    requires b in base[i] && b !in Successors(|ring|, i, degree)
    requires c !in base[i] && ring[c].zone != ring[i].zone
    ensures hrw.pair(ring[i].id, ring[b].id) > hrw.pair(ring[i].id, ring[c].id) ||
      (hrw.pair(ring[i].id, ring[b].id) == hrw.pair(ring[i].id, ring[c].id) && b < c)
  {
    hide Successors;
    assert HasLayers(hrw, ring, degree, chords, i, base[i]);
    var succ := Successors(|ring|, i, degree);
    var f := PairWeight(hrw, ring, i);
    var picked :| IsTop(f, picked, OtherZones(ring, i) - succ, chords) && base[i] == succ + picked;
    assert Beats(f, b, c);
  }

  /** Both ends of a repair weigh at least as much for it as any other agent of their zone. */
  lemma RepairsAreHeaviest(hrw: Hrw, ring: seq<Agent>, base: Adj, i: nat, j: nat, k: nat)
    requires |base| == |ring| && Repairs(hrw, ring, base, i, j) && k < |ring|
    ensures var from, to := ring[i].zone, ring[j].zone;
      && (ring[k].zone == from ==> hrw.repair(from, to, ring[i].id) >= hrw.repair(from, to, ring[k].id))
      && (ring[k].zone == to ==> hrw.repair(from, to, ring[j].id) >= hrw.repair(from, to, ring[k].id))
  {
    hide Covered;
    var f := RepairWeight(hrw, ring, ring[i].zone, ring[j].zone);
    assert ring[k].zone == ring[i].zone && k != i ==> Beats(f, i, k);
    assert ring[k].zone == ring[j].zone && k != j ==> Beats(f, j, k);
  }

  // ---- the same, by id ----

  ghost predicate ProbePath(plan: Plan, path: seq<string>) {
    && path != [] && (forall k :: 0 <= k < |path| ==> path[k] in plan)
    && forall k :: 0 <= k < |path| - 1 ==> path[k + 1] in plan[path[k]]
  }

  lemma NamedPath(ring: seq<Agent>, adj: Adj, plan: Plan, path: seq<nat>) returns (names: seq<string>)
    requires IsNamed(ring, adj, plan) && IsPath(adj, path)
    ensures ProbePath(plan, names) && |names| == |path|
    ensures names[0] == ring[path[0]].id && names[|names| - 1] == ring[path[|path| - 1]].id
  {
    names := seq(|path|, k requires 0 <= k < |path| => ring[path[k]].id);
    forall k | 0 <= k < |path| - 1 ensures names[k + 1] in plan[names[k]] {
      assert path[k + 1] in adj[path[k]];
    }
  }

  lemma BaseHasRing(hrw: Hrw, ring: seq<Agent>, degree: nat, chords: nat, base: Adj, adj: Adj)
    requires IsBase(hrw, ring, degree, chords, base) && IsRepaired(hrw, ring, base, adj)
    ensures RingInside(adj, degree)
  {
    forall i | 0 <= i < |adj| ensures Successors(|adj|, i, degree) <= adj[i] {
      assert HasLayers(hrw, ring, degree, chords, i, base[i]);
    }
  }

  lemma Positions(agents: seq<Agent>, ring: seq<Agent>, a: Agent) returns (i: nat)
    requires IsRing(agents, ring) && a in agents
    ensures i < |ring| && ring[i] == a && |ring| == |agents|
  {
    assert a in multiset(ring);
    i :| 0 <= i < |ring| && ring[i] == a;
    assert |multiset(ring)| == |multiset(agents)|;
  }

  /** On a sparse mesh with a ring, every agent reaches every other over probes. */
  lemma PlanIsStronglyConnected(hrw: Hrw, t: Topology, agents: seq<Agent>, plan: Plan, a: Agent, b: Agent)
    returns (path: seq<string>)
    requires IsPlan(hrw, t, agents, Some(plan)) && !FullMesh(t, |agents|)
    requires a in agents && b in agents && t.ringDegree >= 1
    ensures ProbePath(plan, path) && path[0] == a.id && path[|path| - 1] == b.id
  {
    hide IsBase, IsRepaired, RingInside, IsPath, ProbePath;
    var ring: seq<Agent>, base: Adj, adj: Adj :| Stages(hrw, t, agents, ring, base, adj, plan);
    var i := Positions(agents, ring, a);
    var j := Positions(agents, ring, b);
    var degree := Capped(t.ringDegree, |ring|);
    BaseHasRing(hrw, ring, degree, Capped(t.zoneChords, |ring|), base, adj);
    var p: seq<nat>;
    if |ring| == 1 {
      p := [i];
      SingletonPath(adj, i);
    } else {
      p := StronglyConnected(adj, degree, i, j);
    }
    PathNotEmpty(adj, p);
    path := NamedPath(ring, adj, plan, p);
  }

  lemma SingletonPath(adj: Adj, i: nat)
    requires i < |adj|
    ensures IsPath(adj, [i])
  {
  }

  lemma PathNotEmpty(adj: Adj, p: seq<nat>)
    requires IsPath(adj, p)
    ensures p != [] && p[0] < |adj| && p[|p| - 1] < |adj|
  {
  }

  lemma NamedEdge(ring: seq<Agent>, adj: Adj, plan: Plan, i: nat, j: nat)
    requires IsNamed(ring, adj, plan) && i < |ring| && j < |ring| && j in adj[i]
    ensures ring[i].id in plan && ring[j].id in plan[ring[i].id]
  {
  }

  /** Every ordered pair of zones has a probe, so zone alerting keeps its view on a sparse mesh. */
  lemma PlanCoversZonePairs(hrw: Hrw, t: Topology, agents: seq<Agent>, plan: Plan, a: Agent, b: Agent)
    returns (x: Agent, y: Agent)
    requires IsPlan(hrw, t, agents, Some(plan)) && !FullMesh(t, |agents|)
    requires a in agents && b in agents && a.zone != b.zone
    ensures x in agents && y in agents && x.zone == a.zone && y.zone == b.zone
    ensures x.id in plan && y.id in plan[x.id]
  {
    hide IsBase, IsRepaired, IsNamed;
    var ring: seq<Agent>, base: Adj, adj: Adj :| Stages(hrw, t, agents, ring, base, adj, plan);
    var i := Positions(agents, ring, a);
    var j := Positions(agents, ring, b);
    EveryZonePairIsCovered(hrw, ring, base, adj, i, j);
    var u, v :| 0 <= u < |ring| && 0 <= v < |ring| && v in adj[u] && ring[u].zone == a.zone && ring[v].zone == b.zone;
    x, y := ring[u], ring[v];
    NamedEdge(ring, adj, plan, u, v);
    assert x in multiset(agents) && y in multiset(agents);
  }

  /** On the ring, b comes at most degree places after a. */
  ghost predicate RingEdge(agents: seq<Agent>, degree: nat, a: Agent, b: Agent) {
    exists ring, i: nat, j: nat :: IsRing(agents, ring) && i < |ring| && j < |ring| && ring[i] == a && ring[j] == b
      && j in Successors(|ring|, i, degree)
  }

  /** Nobody probes itself or a stranger; a probe that is not a ring edge crosses zones. */
  lemma PlanProbesOthers(hrw: Hrw, t: Topology, agents: seq<Agent>, plan: Plan, a: Agent, peer: string)
    returns (b: Agent)
    requires IsPlan(hrw, t, agents, Some(plan)) && !FullMesh(t, |agents|) && DistinctIds(agents)
    requires a in agents && a.id in plan && peer in plan[a.id]
    ensures b in agents && b.id == peer && b.id != a.id
    ensures b.zone != a.zone || RingEdge(agents, Capped(t.ringDegree, |agents|), a, b)
  {
    hide IsBase, IsRepaired;
    var ring: seq<Agent>, base: Adj, adj: Adj :| Stages(hrw, t, agents, ring, base, adj, plan);
    DistinctSurvives(agents, ring);
    var i := Positions(agents, ring, a);
    var j :| j in adj[i] && j < |ring| && ring[j].id == peer;
    EdgesAreProbes(hrw, ring, Capped(t.ringDegree, |ring|), Capped(t.zoneChords, |ring|), base, adj, i, j);
    b := ring[j];
    assert b in multiset(agents);
  }

  // ---- how many probes it takes ----

  lemma {:induction false} ImageSize(s: set<nat>, f: nat -> string)
    requires forall x, y :: x in s && y in s && x != y ==> f(x) != f(y)
    ensures |set x | x in s :: f(x)| == |s|
  {
    if s != {} {
      var x :| x in s;
      ImageSize(s - {x}, f);
      assert (set y | y in s :: f(y)) == (set y | y in s - {x} :: f(y)) + {f(x)};
    }
  }

  function Zones(agents: seq<Agent>): set<string> {
    set a | a in agents :: a.zone
  }

  lemma OneWinner(f: Weight, ring: seq<Agent>, zone: string, i: nat, j: nat)
    requires Winner(f, ring, zone, i) && Winner(f, ring, zone, j)
    ensures i == j
  {
  }

  lemma IdsSize(ring: seq<Agent>, peers: set<nat>)
    requires DistinctIds(ring) && forall j :: j in peers ==> j < |ring|
    ensures |Ids(ring, peers)| == |peers|
  {
    var id := (j: nat) => if j < |ring| then ring[j].id else "";
    ImageSize(peers, id);
    assert Ids(ring, peers) == set j | j in peers :: id(j);
  }

  /** An agent repairs at most one probe per other zone. */
  lemma RepairsAreFew(hrw: Hrw, ring: seq<Agent>, base: Adj, i: nat)
    requires |base| == |ring| && i < |ring|
    ensures |RepairPeers(hrw, ring, base, i)| <= |Zones(ring)| - 1
  {
    var peers := RepairPeers(hrw, ring, base, i);
    var zone := (j: nat) => if j < |ring| then ring[j].zone else "";
    forall j, k | j in peers && k in peers && j != k ensures zone(j) != zone(k) {
      if ring[j].zone == ring[k].zone {
        OneWinner(RepairWeight(hrw, ring, ring[i].zone, ring[j].zone), ring, ring[j].zone, j, k);
      }
    }
    ImageSize(peers, zone);
    var image := set j | j in peers :: zone(j);
    hide Repairs, RepairPeers;
    assert ring[i].zone in Zones(ring);
    assert forall j :: j in peers ==> ring[j] in ring;
    SmallerSet(image, Zones(ring) - {ring[i].zone});
  }

  lemma {:induction false} SmallerSet(a: set<string>, b: set<string>)
    requires a <= b
    ensures |a| <= |b|
  {
    if x :| x in a {
      SmallerSet(a - {x}, b - {x});
    }
  }

  lemma LayersSize(hrw: Hrw, ring: seq<Agent>, degree: nat, chords: nat, i: nat, peers: set<nat>)
    requires i < |ring| && degree < |ring| && HasLayers(hrw, ring, degree, chords, i, peers)
    ensures degree <= |peers| <= degree + chords
    ensures forall j :: j in peers ==> j < |ring|
  {
    hide Successors, PairWeight, Beats;
    var succ := Successors(|ring|, i, degree);
    var picked :| IsTop(PairWeight(hrw, ring, i), picked, OtherZones(ring, i) - succ, chords) && peers == succ + picked;
    SuccessorsAre(|ring|, i, degree);
    SubsetSize(succ, peers);
    assert |peers| == |succ| + |picked - succ|;
  }

  /** Every agent probes its ring successors, min(ringDegree, n - 1) of them, and no more than those, its
      chords and one repair per other zone. */
  lemma PlanSize(hrw: Hrw, t: Topology, agents: seq<Agent>, plan: Plan, a: Agent)
    requires IsPlan(hrw, t, agents, Some(plan)) && !FullMesh(t, |agents|) && DistinctIds(agents) && a in agents
    ensures a.id in plan
    ensures var n := |agents|;
      var ring := if t.ringDegree < n - 1 then t.ringDegree else n - 1;
      var chords := if t.zoneChords < n - 1 then t.zoneChords else n - 1;
      ring <= |plan[a.id]| <= ring + chords + |Zones(agents)| - 1
  {
    hide IsBase, IsRepaired, RepairPeers, HasLayers;
    var ring: seq<Agent>, base: Adj, adj: Adj :| Stages(hrw, t, agents, ring, base, adj, plan);
    DistinctSurvives(agents, ring);
    var i := Positions(agents, ring, a);
    var degree, chords := Capped(t.ringDegree, |ring|), Capped(t.zoneChords, |ring|);
    AdjSize(hrw, ring, degree, chords, base, adj, i);
    IdsSize(ring, adj[i]);
    SameZones(agents, ring);
    hide Ids, Zones, DistinctIds, IsRing;
  }

  lemma SameZones(agents: seq<Agent>, ring: seq<Agent>)
    requires multiset(agents) == multiset(ring)
    ensures Zones(agents) == Zones(ring)
  {
    assert forall a :: a in agents <==> a in multiset(agents);
    assert forall a :: a in ring <==> a in multiset(ring);
  }

  lemma AdjSize(hrw: Hrw, ring: seq<Agent>, degree: nat, chords: nat, base: Adj, adj: Adj, i: nat)
    requires IsBase(hrw, ring, degree, chords, base) && IsRepaired(hrw, ring, base, adj)
    requires degree < |ring| && i < |ring|
    ensures degree <= |adj[i]| <= degree + chords + |Zones(ring)| - 1
    ensures forall j :: j in adj[i] ==> j < |ring|
  {
    hide HasLayers, Repairs;
    LayersSize(hrw, ring, degree, chords, i, base[i]);
    RepairsAreFew(hrw, ring, base, i);
    var repairs := RepairPeers(hrw, ring, base, i);
    assert adj[i] == base[i] + repairs && |adj[i]| == |base[i]| + |repairs - base[i]|;
    SubsetSize(repairs - base[i], repairs);
  }

  // ---- building it ----

  /** One agent's ring and chord targets. */
  method Layers(hrw: Hrw, ring: seq<Agent>, degree: nat, chords: nat, i: nat) returns (peers: set<nat>)
    requires i < |ring| && degree < |ring|
    ensures HasLayers(hrw, ring, degree, chords, i, peers)
  {
    peers := {};
    for d := 1 to degree + 1
      invariant peers == Successors(|ring|, i, d - 1)
    {
      peers := peers + {(i + d) % |ring|};
    }
    SuccessorsAre(|ring|, i, degree);
    var picked := ChordsOf(|ring|, OtherZones(ring, i), peers, PairWeight(hrw, ring, i), chords, degree);
    peers := peers + picked;
  }

  ghost predicate HasZone(ring: seq<Agent>, zone: string) {
    exists x :: 0 <= x < |ring| && ring[x].zone == zone
  }

  /** argmaxByScore: the highest weight among the agents of a zone. */
  method ArgmaxByScore(f: Weight, ring: seq<Agent>, zone: string) returns (winner: nat)
    requires HasZone(ring, zone)
    ensures Winner(f, ring, zone, winner)
    ensures winner < |ring| && ring[winner].zone == zone
    ensures forall x: nat :: x < |ring| && ring[x].zone == zone && x != winner ==>
      f(winner) > f(x) || (f(winner) == f(x) && winner < x)
  {
    var best: Option<nat> := None;
    for i := 0 to |ring|
      invariant best == None ==> forall x :: 0 <= x < i ==> ring[x].zone != zone
      invariant best.Some? ==> best.value < i && ring[best.value].zone == zone
      invariant best.Some? ==> forall x: nat :: x < i && ring[x].zone == zone && x != best.value ==>
        Beats(f, best.value, x)
    {
      if ring[i].zone == zone && (best == None || Beats(f, i, best.value)) {
        best := Some(i);
      }
    }
    winner := best.value;
  }

  /** The repair probes of i within the zone pairs done so far. */
  ghost function RepairsDone(hrw: Hrw, ring: seq<Agent>, base: Adj, done: set<(string, string)>, i: nat): set<nat>
    requires |base| == |ring| && i < |ring|
  {
    set j: nat | j < |ring| && Repairs(hrw, ring, base, i, j) && (ring[i].zone, ring[j].zone) in done
  }

  ghost predicate PartlyRepaired(hrw: Hrw, ring: seq<Agent>, base: Adj, done: set<(string, string)>, adj: Adj) {
    && |base| == |ring| == |adj|
    && forall i :: 0 <= i < |ring| ==> adj[i] == base[i] + RepairsDone(hrw, ring, base, done, i)
  }

  lemma RepairDone(hrw: Hrw, ring: seq<Agent>, base: Adj, done: set<(string, string)>, from: string, to: string,
                   i: nat, src: nat, dst: nat)
    requires |base| == |ring| && i < |ring| && from != to && !Covered(ring, base, from, to)
    requires Winner(RepairWeight(hrw, ring, from, to), ring, from, src)
    requires Winner(RepairWeight(hrw, ring, from, to), ring, to, dst)
    ensures RepairsDone(hrw, ring, base, done + {(from, to)}, i)
      == RepairsDone(hrw, ring, base, done, i) + if i == src then {dst} else {}
  {
    var f := RepairWeight(hrw, ring, from, to);
    assert Repairs(hrw, ring, base, src, dst);
    forall j: nat | j < |ring| && Repairs(hrw, ring, base, i, j) && ring[i].zone == from && ring[j].zone == to
      ensures i == src && j == dst
    {
      hide Covered;
      assert i != src ==> Beats(f, i, src) && Beats(f, src, i);
      assert j != dst ==> Beats(f, j, dst) && Beats(f, dst, j);
    }
  }

  lemma NothingToRepair(hrw: Hrw, ring: seq<Agent>, base: Adj, done: set<(string, string)>, from: string, to: string,
                        i: nat)
    requires |base| == |ring| && i < |ring| && (from == to || Covered(ring, base, from, to))
    ensures RepairsDone(hrw, ring, base, done + {(from, to)}, i) == RepairsDone(hrw, ring, base, done, i)
  {
  }

  /** One ordered zone pair of repairZonePairs. */
  method RepairPair(hrw: Hrw, ring: seq<Agent>, base: Adj, from: string, to: string, cur: Adj,
                    ghost done: set<(string, string)>)
    returns (adj: Adj)
    requires PartlyRepaired(hrw, ring, base, done, cur)
    requires HasZone(ring, from) && HasZone(ring, to)
    ensures PartlyRepaired(hrw, ring, base, done + {(from, to)}, adj)
  {
    adj := cur;
    if from == to || Covered(ring, base, from, to) {
      forall i | 0 <= i < |ring|
        ensures RepairsDone(hrw, ring, base, done + {(from, to)}, i) == RepairsDone(hrw, ring, base, done, i)
      {
        NothingToRepair(hrw, ring, base, done, from, to, i);
      }
      return;
    }
    var src := ArgmaxByScore(RepairWeight(hrw, ring, from, to), ring, from);
    var dst := ArgmaxByScore(RepairWeight(hrw, ring, from, to), ring, to);
    forall i | 0 <= i < |ring|
      ensures RepairsDone(hrw, ring, base, done + {(from, to)}, i)
        == RepairsDone(hrw, ring, base, done, i) + if i == src then {dst} else {}
    {
      RepairDone(hrw, ring, base, done, from, to, i, src, dst);
    }
    hide Covered, Winner, RepairsDone;
    adj := adj[src := adj[src] + {dst}];
  }

  /** The zones of the fleet, each once. */
  method ZonesOf(ring: seq<Agent>) returns (zones: seq<string>)
    ensures forall i :: 0 <= i < |ring| ==> ring[i].zone in zones
    ensures forall k :: 0 <= k < |zones| ==> HasZone(ring, zones[k])
    ensures forall k, m :: 0 <= k < m < |zones| ==> zones[k] != zones[m]
  {
    zones := [];
    for i := 0 to |ring|
      invariant forall x :: 0 <= x < i ==> ring[x].zone in zones
      invariant forall k :: 0 <= k < |zones| ==> HasZone(ring, zones[k])
      invariant forall k, m :: 0 <= k < m < |zones| ==> zones[k] != zones[m]
    {
      assert HasZone(ring, ring[i].zone);
      if ring[i].zone !in zones {
        zones := zones + [ring[i].zone];
      }
    }
  }

  /** repairZonePairs: one probe for every ordered pair of zones the ring and chords left out. */
  method RepairZonePairs(hrw: Hrw, ring: seq<Agent>, base: Adj) returns (adj: Adj)
    requires |base| == |ring|
    ensures IsRepaired(hrw, ring, base, adj)
  {
    hide Repairs;
    var zones := ZonesOf(ring);
    adj := base;
    ghost var done: set<(string, string)> := {};
    for k := 0 to |zones|
      invariant PartlyRepaired(hrw, ring, base, done, adj)
      invariant forall a, b :: 0 <= a < k && 0 <= b < |zones| ==> (zones[a], zones[b]) in done
    {
      for m := 0 to |zones|
        invariant PartlyRepaired(hrw, ring, base, done, adj)
        invariant forall a, b :: 0 <= a < k && 0 <= b < |zones| ==> (zones[a], zones[b]) in done
        invariant forall b :: 0 <= b < m ==> (zones[k], zones[b]) in done
      {
        adj := RepairPair(hrw, ring, base, zones[k], zones[m], adj, done);
        done := done + {(zones[k], zones[m])};
      }
    }
    AllPairsDone(hrw, ring, base, adj, done, zones);
  }

  lemma AllPairsDone(hrw: Hrw, ring: seq<Agent>, base: Adj, adj: Adj, done: set<(string, string)>, zones: seq<string>)
    requires PartlyRepaired(hrw, ring, base, done, adj)
    requires forall i :: 0 <= i < |ring| ==> ring[i].zone in zones
    requires forall a, b :: 0 <= a < |zones| && 0 <= b < |zones| ==> (zones[a], zones[b]) in done
    ensures IsRepaired(hrw, ring, base, adj)
  {
    hide Repairs;
    forall i, j | 0 <= i < |ring| && 0 <= j < |ring| ensures (ring[i].zone, ring[j].zone) in done {
      var a :| 0 <= a < |zones| && zones[a] == ring[i].zone;
      var b :| 0 <= b < |zones| && zones[b] == ring[j].zone;
    }
    forall i | 0 <= i < |ring| ensures RepairsDone(hrw, ring, base, done, i) == RepairPeers(hrw, ring, base, i) {
    }
  }

  /** The plan by id. */
  method NamePlan(ring: seq<Agent>, adj: Adj) returns (plan: Plan)
    requires |adj| == |ring| && DistinctIds(ring)
    ensures IsNamed(ring, adj, plan)
  {
    plan := map[];
    for i := 0 to |ring|
      invariant forall id :: id in plan <==> exists x :: 0 <= x < i && ring[x].id == id
      invariant forall x :: 0 <= x < i ==> ring[x].id in plan && plan[ring[x].id] == Ids(ring, adj[x])
    {
      plan := plan[ring[i].id := Ids(ring, adj[i])];
    }
  }

  /** The ring and the chords of every agent. */
  method BuildBase(hrw: Hrw, ring: seq<Agent>, degree: nat, chords: nat) returns (base: Adj)
    requires ring != [] ==> degree < |ring|
    ensures IsBase(hrw, ring, degree, chords, base)
  {
    hide HasLayers;
    base := [];
    for i := 0 to |ring|
      invariant |base| == i && forall x :: 0 <= x < i ==> HasLayers(hrw, ring, degree, chords, x, base[x])
    {
      var peers := Layers(hrw, ring, degree, chords, i);
      base := base + [peers];
    }
  }

  /** Build: full mesh below the threshold, otherwise the three layers over the sorted fleet. */
  method Build(hrw: Hrw, t: Topology, agents: seq<Agent>) returns (plan: Option<Plan>)
    requires DistinctIds(agents)
    ensures IsPlan(hrw, t, agents, plan)
    ensures plan.None? <==> !t.sparse || (0 < t.autoThreshold && |agents| < t.autoThreshold)
  {
    hide IsBase, IsRepaired, IsNamed, IsRing, DistinctIds;
    if FullMesh(t, |agents|) {
      return None;
    }
    var ring := SortRing(agents);
    RingIsDistinct(agents, ring);
    var degree, chords := Capped(t.ringDegree, |ring|), Capped(t.zoneChords, |ring|);
    var base := BuildBase(hrw, ring, degree, chords);
    BaseSize(hrw, ring, degree, chords, base);
    var adj := RepairZonePairs(hrw, ring, base);
    RepairedSize(hrw, ring, base, adj);
    var named := NamePlan(ring, adj);
    assert Stages(hrw, t, agents, ring, base, adj, named);
    plan := Some(named);
  }

  lemma RingIsDistinct(agents: seq<Agent>, ring: seq<Agent>)
    requires IsRing(agents, ring) && DistinctIds(agents)
    ensures DistinctIds(ring)
  {
    DistinctSurvives(agents, ring);
  }

  lemma BaseSize(hrw: Hrw, ring: seq<Agent>, degree: nat, chords: nat, base: Adj)
    requires IsBase(hrw, ring, degree, chords, base)
    ensures |base| == |ring|
  {
  }

  lemma RepairedSize(hrw: Hrw, ring: seq<Agent>, base: Adj, adj: Adj)
    requires IsRepaired(hrw, ring, base, adj)
    ensures |adj| == |ring|
  {
  }
}
