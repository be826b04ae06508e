/** The agent's peer list: swapped wholesale, merged while rejoining, with a grace for departed peers'
    counters and a generation check on probes in flight. Metrics are the sets of live (peer, zone)
    series: counters in series, gauges in gauges. Time is in nanoseconds. */
module PeerSeries {
  import opened Options

  datatype Target = Target(agentId: string, node: string, ip: string, zone: string, port: nat, udpPort: nat)

  datatype Departed = Departed(at: int, zone: string)

  datatype Probe = Probe(target: Target, gen: nat)

  const GRACE: int := 600_000_000_000

  type Pair = (string, string)

  datatype State = State(
    self: Target, peers: seq<Target>, gen: nat, zones: map<string, string>,
    departed: map<string, Departed>, series: set<Pair>, gauges: set<Pair>,
    rejoining: bool, rejoinGen: nat, controllerPeers: Option<seq<Target>>,
    probes: set<Probe>, lastSweep: int, now: int)

  // ---- lists ----

  function Names(list: seq<Target>): set<string> {
    set p | p in list :: p.node
  }

  function Pairs(list: seq<Target>): set<Pair> {
    set p | p in list :: (p.node, p.zone)
  }

  /** Node name to zone; the last entry of a name wins. */
  function Zones(list: seq<Target>): map<string, string> {
    if list == [] then map[] else Zones(list[..|list| - 1])[list[|list| - 1].node := list[|list| - 1].zone]
  }

  /** The zone of a name's first entry. */
  function FirstZone(list: seq<Target>, node: string): string {
    if list == [] then "" else if list[0].node == node then list[0].zone else FirstZone(list[1..], node)
  }

  predicate IsSelf(self: Target, p: Target) {
    || p.agentId == self.agentId
    || (self.node != "" && p.node == self.node)
    || (self.ip != "" && p.ip == self.ip)
  }

  function WithoutSelf(self: Target, list: seq<Target>): seq<Target> {
    if list == [] then []
    else WithoutSelf(self, list[..|list| - 1]) + if IsSelf(self, list[|list| - 1]) then [] else [list[|list| - 1]]
  }

  function Unnamed(names: set<string>, current: seq<Target>): seq<Target> {
    if current == [] then []
    else
      var p := current[|current| - 1];
      Unnamed(names, current[..|current| - 1]) + if p.node in names then [] else [p]
  }

  /** next plus the peers of current it does not name. */
  function Merged(next: seq<Target>, current: seq<Target>): seq<Target> {
    next + Unnamed(Names(next), current)
  }

  // ---- the swap ----

  /** Series of a departed peer that is back under another zone. */
  function BackElsewhere(departed: map<string, Departed>, next: seq<Target>): set<Pair> {
    set n | n in departed && n in Names(next) && FirstZone(next, n) != departed[n].zone :: (n, departed[n].zone)
  }

  /** Series of a current peer whose zone changes. */
  function Moved(peers: seq<Target>, next: seq<Target>): set<Pair> {
    set p | p in peers && p.node in Zones(next) && Zones(next)[p.node] != p.zone :: (p.node, p.zone)
  }

  function Gone(peers: seq<Target>, next: seq<Target>): set<string> {
    Names(peers) - Names(next)
  }

  function DropNames(pairs: set<Pair>, names: set<string>): set<Pair> {
    set x | x in pairs && x.0 !in names
  }

  /** forgetDepartedPeers. */
  function Forget(a: State, next: seq<Target>): State {
    var gone := Gone(a.peers, next);
    var retired := BackElsewhere(a.departed, next) + Moved(a.peers, next);
    var leaving := map n | n in gone && n !in a.departed :: Departed(a.now, FirstZone(a.peers, n));
    a.(departed := (a.departed - Names(next)) + leaving,
       series := a.series - retired,
       gauges := DropNames(a.gauges - retired, gone))
  }

  /** ReplacePeers, after its retire callback. */
  function Replace(a: State, next: seq<Target>): State {
    var filtered := WithoutSelf(a.self, next);
    a.(peers := filtered, gen := a.gen + 1, zones := Zones(filtered))
  }

  function Expired(a: State): set<string> {
    set n | n in a.departed && a.now - a.departed[n].at >= GRACE
  }

  function Sweep(a: State): State {
    a.(departed := a.departed - Expired(a), series := DropNames(a.series, Expired(a)), lastSweep := a.now)
  }

  /** The per-pair counters of the list exist from the first scrape. */
  function Sync(a: State): State {
    a.(series := a.series + Pairs(a.peers))
  }

  function Swap(a: State, next: seq<Target>): State {
    Replace(Forget(a, next), next)
  }

  /** applyPeers: the swap, then a sweep, then the new pairs; results may be delivered in between. */
  function Applied(a: State, next: seq<Target>): State {
    Sync(Sweep(Swap(a, next)))
  }

  // ---- the other steps ----

  /** The swap of a list from the controller. */
  function TakeList(a: State, next: seq<Target>): State {
    Swap(a.(controllerPeers := Some(next)), if a.rejoining then Merged(next, a.peers) else next)
  }

  function RejoinBegun(a: State): State {
    a.(rejoinGen := a.rejoinGen + 1, rejoining := true)
  }

  /** The swap, if any, when the timer of rejoin generation gen fires. */
  function RejoinEnded(a: State, gen: nat): State {
    if gen != a.rejoinGen || !a.rejoining then a
    else if a.controllerPeers.None? then a.(rejoining := false)
    else Swap(a.(rejoining := false), a.controllerPeers.value)
  }

  function StartRound(a: State): State {
    a.(probes := a.probes + set p | p in a.peers :: Probe(p, a.gen))
  }

  /** deliverPeer's check: the list did not change since, or still holds the peer under this zone. */
  predicate Assigned(a: State, p: Probe) {
    p.gen == a.gen || (p.target.node in a.zones && a.zones[p.target.node] == p.target.zone)
  }

  function Deliver(a: State, p: Probe): State {
    var pair := (p.target.node, p.target.zone);
    if Assigned(a, p) then a.(series := a.series + {pair}, gauges := a.gauges + {pair}) else a
  }

  // ---- the invariant ----

  /** Every entry of p's name carries p's zone. */
  ghost predicate Agrees(list: seq<Target>, p: Target) {
    forall q :: q in list && q.node == p.node ==> q.zone == p.zone
  }

  ghost predicate OneZone(list: seq<Target>) {
    forall p :: p in list ==> Agrees(list, p)
  }

  /** For every other node the list names, the zones its first and its last entry give are zones it is
      probed under, and it is probed under one zone only. */
  ghost predicate Proper(self: Target, list: seq<Target>) {
    && OneZone(WithoutSelf(self, list))
    && forall n :: n in Zones(list) && n != self.node ==>
      (n, Zones(list)[n]) in Pairs(WithoutSelf(self, list)) && (n, FirstZone(list, n)) in Pairs(WithoutSelf(self, list))
  }

  ghost predicate ListInv(a: State) {
    && a.self.node != "" && OneZone(a.peers) && (forall p :: p in a.peers ==> !IsSelf(a.self, p))
    && a.zones == Zones(a.peers)
  }

  /** Every live counter is a (peer, zone) of the list or of a departed peer, every gauge one of the list. */
  ghost predicate SeriesInv(a: State) {
    && (forall n :: n in a.departed ==> n !in Names(a.peers) && n != a.self.node)
    && (forall x :: x in a.series ==> x in Pairs(a.peers) || (x.0 in a.departed && x.1 == a.departed[x.0].zone))
    && a.gauges <= Pairs(a.peers)
  }

  /** No departed peer was past its grace at the last sweep. */
  ghost predicate GraceInv(a: State) {
    && a.lastSweep <= a.now
    && forall n :: n in a.departed ==> a.lastSweep - a.departed[n].at < GRACE && a.departed[n].at <= a.now
  }

  ghost predicate ProbeInv(a: State) {
    forall p :: p in a.probes ==> p.gen <= a.gen && (p.gen == a.gen ==> p.target in a.peers)
  }

  /** Outside a rejoin the probed list is the newest controller list without the agent itself; inside
      one it still names everyone that list names. */
  ghost predicate RejoinInv(a: State) {
    match a.controllerPeers
    case None => a.peers == []
    case Some(list) =>
      && Proper(a.self, list)
      && (if a.rejoining then Names(WithoutSelf(a.self, list)) <= Names(a.peers)
          else a.peers == WithoutSelf(a.self, list))
  }

  ghost predicate Inv(a: State) {
    ListInv(a) && SeriesInv(a) && GraceInv(a) && ProbeInv(a) && RejoinInv(a)
  }

  // ---- lists, again ----

  lemma {:induction false} WithoutSelfHas(self: Target, list: seq<Target>)
    ensures forall p :: p in WithoutSelf(self, list) <==> p in list && !IsSelf(self, p)
  {
    if list != [] {
      var front, last := list[..|list| - 1], list[|list| - 1];
      WithoutSelfHas(self, front);
      assert list == front + [last];
    }
  }

  lemma {:induction false} ZonesHas(list: seq<Target>)
    ensures Zones(list).Keys == Names(list)
    ensures forall n :: n in Zones(list) ==> (n, Zones(list)[n]) in Pairs(list)
  {
    if list != [] {
      var front, last := list[..|list| - 1], list[|list| - 1];
      ZonesHas(front);
      assert list == front + [last];
      assert Names(list) == Names(front) + {last.node};
      assert Pairs(list) == Pairs(front) + {(last.node, last.zone)};
    }
  }

  lemma {:induction false} FirstZoneHas(list: seq<Target>, node: string)
    requires node in Names(list)
    ensures (node, FirstZone(list, node)) in Pairs(list)
  {
    assert list == [list[0]] + list[1..];
    if list[0].node != node {
      assert Names(list) == {list[0].node} + Names(list[1..]);
      FirstZoneHas(list[1..], node);
      assert Pairs(list) == {(list[0].node, list[0].zone)} + Pairs(list[1..]);
    }
  }

  /** Both zone look-ups find the zone all entries of the name agree on. */
  lemma ZoneIs(list: seq<Target>, p: Target)
    requires p in list && Agrees(list, p)
    ensures p.node in Names(list) && p.node in Zones(list) && Zones(list)[p.node] == p.zone
    ensures FirstZone(list, p.node) == p.zone
  {
    ZonesHas(list);
    assert p.node in Names(list);
    FirstZoneHas(list, p.node);
  }

  lemma {:induction false} UnnamedHas(names: set<string>, current: seq<Target>)
    ensures forall p :: p in Unnamed(names, current) <==> p in current && p.node !in names
  {
    if current != [] {
      var front, last := current[..|current| - 1], current[|current| - 1];
      UnnamedHas(names, front);
      assert current == front + [last];
    }
  }

  /** What a list says of a name does not change when entries of other names follow. */
  lemma {:induction false} ZonesExtend(next: seq<Target>, rest: seq<Target>, n: string)
    requires n in Names(next) && n !in Names(rest)
    ensures n in Zones(next) && n in Zones(next + rest) && Zones(next + rest)[n] == Zones(next)[n]
    decreases |rest|
  {
    ZonesHas(next);
    if rest == [] {
      assert next + rest == next;
    } else {
      var front, last := rest[..|rest| - 1], rest[|rest| - 1];
      assert rest == front + [last] && (next + rest)[..|next + rest| - 1] == next + front;
      ZonesExtend(next, front, n);
    }
  }

  lemma {:induction false} FirstZoneExtends(next: seq<Target>, rest: seq<Target>, n: string)
    requires n in Names(next)
    ensures FirstZone(next + rest, n) == FirstZone(next, n)
  {
    assert next == [next[0]] + next[1..] && (next + rest)[1..] == next[1..] + rest;
    if next[0].node != n {
      assert Names(next) == {next[0].node} + Names(next[1..]);
      FirstZoneExtends(next[1..], rest, n);
    }
  }

  lemma MergedHas(self: Target, next: seq<Target>, current: seq<Target>)
    requires forall p :: p in current ==> !IsSelf(self, p)
    ensures forall p :: p in WithoutSelf(self, Merged(next, current)) <==>
      p in WithoutSelf(self, next) || (p in current && p.node !in Names(next))
  {
    UnnamedHas(Names(next), current);
    WithoutSelfHas(self, next);
    WithoutSelfHas(self, Merged(next, current));
  }

  lemma MergedZonesAreProbed(self: Target, next: seq<Target>, current: seq<Target>, n: string)
    requires Proper(self, next) && (forall p :: p in current ==> !IsSelf(self, p)) && n != self.node
    requires n in Zones(Merged(next, current))
    ensures var merged := Merged(next, current);
      && (n, Zones(merged)[n]) in Pairs(WithoutSelf(self, merged))
      && (n, FirstZone(merged, n)) in Pairs(WithoutSelf(self, merged))
  {
    var merged := Merged(next, current);
    MergedHas(self, next, current);
    UnnamedHas(Names(next), current);
    ZonesHas(merged);
    hide OneZone;
    if n in Names(next) {
      ZonesExtend(next, Unnamed(Names(next), current), n);
      FirstZoneExtends(next, Unnamed(Names(next), current), n);
    } else {
      FirstZoneHas(merged, n);
    }
  }

  lemma MergedIsProper(self: Target, next: seq<Target>, current: seq<Target>)
    requires Proper(self, next) && OneZone(current) && forall p :: p in current ==> !IsSelf(self, p)
    ensures Proper(self, Merged(next, current))
  {
    MergedHas(self, next, current);
    WithoutSelfHas(self, next);
    var probed := WithoutSelf(self, Merged(next, current));
    forall p | p in probed ensures Agrees(probed, p) {
      assert if p in WithoutSelf(self, next) then Agrees(WithoutSelf(self, next), p) else Agrees(current, p);
      assert p in WithoutSelf(self, next) ==> p.node in Names(next);
    }
    forall n | n in Zones(Merged(next, current)) && n != self.node ensures
      (n, Zones(Merged(next, current))[n]) in Pairs(probed) && (n, FirstZone(Merged(next, current), n)) in Pairs(probed)
    {
      MergedZonesAreProbed(self, next, current, n);
    }
  }

  lemma MergedKeepsNames(self: Target, next: seq<Target>, current: seq<Target>)
    requires self.node != "" && Proper(self, next) && forall p :: p in current ==> !IsSelf(self, p)
    ensures Names(current) <= Names(WithoutSelf(self, Merged(next, current)))
    ensures Names(WithoutSelf(self, next)) <= Names(WithoutSelf(self, Merged(next, current)))
  {
    MergedHas(self, next, current);
    ZonesHas(next);
    hide OneZone;
    forall p | p in current ensures p.node in Names(WithoutSelf(self, Merged(next, current))) {
      if p.node in Names(next) {
        assert (p.node, Zones(next)[p.node]) in Pairs(WithoutSelf(self, next));
      }
    }
  }

  // ---- a swap keeps the invariant ----

  lemma SwapKeepsList(a: State, next: seq<Target>)
    requires ListInv(a) && Proper(a.self, next)
    ensures ListInv(Swap(a, next))
  {
    WithoutSelfHas(a.self, next);
  }

  lemma SwapKeepsSeries(a: State, next: seq<Target>)
    requires ListInv(a) && SeriesInv(a) && Proper(a.self, next)
    ensures SeriesInv(Swap(a, next))
  {
    var c := Swap(a, next);
    WithoutSelfHas(a.self, next);
    hide OneZone;
    forall x | x in c.series ensures x in Pairs(c.peers) || (x.0 in c.departed && x.1 == c.departed[x.0].zone) {
      SeriesSurvives(a, next, x);
    }
    forall x | x in c.gauges ensures x in Pairs(c.peers) {
      GaugeSurvives(a, next, x);
    }
    forall n | n in c.departed ensures n !in Names(c.peers) && n != a.self.node {
      assert n !in Names(next);
    }
  }

  lemma GaugeSurvives(a: State, next: seq<Target>, x: Pair)
    requires ListInv(a) && SeriesInv(a) && Proper(a.self, next) && x in Forget(a, next).gauges
    ensures x in Pairs(WithoutSelf(a.self, next))
  {
    var p :| p in a.peers && (p.node, p.zone) == x;
    assert p.node in Names(a.peers) && p.node !in Gone(a.peers, next);
    ZonesHas(next);
    assert x !in Moved(a.peers, next);
  }

  lemma SeriesSurvives(a: State, next: seq<Target>, x: Pair)
    requires ListInv(a) && SeriesInv(a) && Proper(a.self, next) && x in Forget(a, next).series
    ensures var b := Forget(a, next);
      x in Pairs(WithoutSelf(a.self, next)) || (x.0 in b.departed && x.1 == b.departed[x.0].zone)
  {
    ZonesHas(next);
    if x.0 in Names(next) {
      assert x !in Moved(a.peers, next) && x !in BackElsewhere(a.departed, next);
      if x in Pairs(a.peers) {
        var p :| p in a.peers && (p.node, p.zone) == x;
      }
    } else if x in Pairs(a.peers) {
      var p :| p in a.peers && (p.node, p.zone) == x;
      ZoneIs(a.peers, p);
      assert x.0 in Names(a.peers) && x.0 !in a.departed;
    }
  }

  lemma SwapKeepsRest(a: State, next: seq<Target>)
    requires GraceInv(a) && ProbeInv(a)
    ensures GraceInv(Swap(a, next)) && ProbeInv(Swap(a, next))
  {
    var c := Swap(a, next);
    forall n | n in c.departed ensures c.lastSweep - c.departed[n].at < GRACE && c.departed[n].at <= c.now {
      assert n in a.departed || c.departed[n].at == a.now;
    }
  }

  lemma SweepKeeps(a: State)
    requires SeriesInv(a) && GraceInv(a)
    ensures SeriesInv(Sweep(a)) && GraceInv(Sweep(a))
  {
  }

  // ---- runs ----

  datatype Event =
    | List(next: seq<Target>)
    | Begin
    | End(timer: nat)
    | Swept
    | Synced
    | Tick(step: nat)
    | Round
    | Result(probe: Probe)

  /** Lists are proper, and only a probe that was sent has a result. */
  ghost predicate Enabled(a: State, e: Event) {
    (e.List? ==> Proper(a.self, e.next)) && (e.Result? ==> e.probe in a.probes)
  }

  function Next(a: State, e: Event): State {
    match e
    case List(next) => TakeList(a, next)
    case Begin => RejoinBegun(a)
    case End(timer) => RejoinEnded(a, timer)
    case Swept => Sweep(a)
    case Synced => Sync(a)
    case Tick(step) => a.(now := a.now + step)
    case Round => StartRound(a)
    case Result(probe) => Deliver(a, probe)
  }

  /** The look-up by name finds a zone exactly when the list holds the peer under it. */
  lemma LookUpIsExact(peers: seq<Target>, p: Target)
    requires OneZone(peers)
    ensures p.node in Zones(peers) && Zones(peers)[p.node] == p.zone <==> (p.node, p.zone) in Pairs(peers)
  {
    ZonesHas(peers);
    if (p.node, p.zone) in Pairs(peers) {
      var q :| q in peers && (q.node, q.zone) == (p.node, p.zone);
      ZoneIs(peers, q);
    }
  }

  /** A result is written exactly when its (peer, zone) is one of the current list: the generation is
      only a short cut. */
  lemma DeliveryIsExact(a: State, p: Probe)
    requires ListInv(a) && ProbeInv(a) && p in a.probes
    ensures Assigned(a, p) <==> (p.target.node, p.target.zone) in Pairs(a.peers)
  {
    LookUpIsExact(a.peers, p.target);
    assert p.target in a.peers ==> (p.target.node, p.target.zone) in Pairs(a.peers);
  }

  lemma SwapKeeps(a: State, next: seq<Target>)
    requires ListInv(a) && SeriesInv(a) && GraceInv(a) && ProbeInv(a) && Proper(a.self, next)
    ensures var c := Swap(a, next); ListInv(c) && SeriesInv(c) && GraceInv(c) && ProbeInv(c)
  {
    SwapKeepsList(a, next);
    SwapKeepsSeries(a, next);
    SwapKeepsRest(a, next);
  }

  lemma TakeListKeepsInv(a: State, next: seq<Target>)
    requires Inv(a) && Proper(a.self, next)
    ensures Inv(TakeList(a, next))
    ensures a.rejoining ==> Names(a.peers) <= Names(TakeList(a, next).peers)
  {
    var b := a.(controllerPeers := Some(next));
    if a.rejoining {
      MergedIsProper(a.self, next, a.peers);
      MergedKeepsNames(a.self, next, a.peers);
      SwapKeeps(b, Merged(next, a.peers));
    } else {
      SwapKeeps(b, next);
    }
  }

  lemma EndRejoinKeepsInv(a: State, gen: nat)
    requires Inv(a)
    ensures Inv(RejoinEnded(a, gen))
  {
    if gen == a.rejoinGen && a.rejoining {
      var b := a.(rejoining := false);
      if a.controllerPeers.Some? {
        SwapKeeps(b, a.controllerPeers.value);
      }
    }
  }

  lemma BeginKeepsInv(a: State)
    requires Inv(a)
    ensures Inv(RejoinBegun(a))
  {
  }

  lemma DeliverKeepsInv(a: State, p: Probe)
    requires Inv(a) && p in a.probes
    ensures Inv(Deliver(a, p))
  {
    DeliveryIsExact(a, p);
    hide OneZone, Zones, WithoutSelf;
  }

  lemma NextKeepsInv(a: State, e: Event)
    requires Inv(a) && Enabled(a, e)
    ensures Inv(Next(a, e)) && Next(a, e).self == a.self
  {
    match e
    case List(next) => TakeListKeepsInv(a, next);
    case Begin => BeginKeepsInv(a);
    case End(timer) => EndRejoinKeepsInv(a, timer);
    case Swept => SweepKeeps(a);
    case Synced =>
    case Tick(step) =>
    case Round =>
    case Result(probe) => DeliverKeepsInv(a, probe);
  }

  function Start(self: Target, now: int): State {
    State(self, [], 0, map[], map[], {}, {}, false, 0, None, {}, now, now)
  }

  ghost predicate IsRun(events: seq<Event>, states: seq<State>) {
    && |states| == |events| + 1
    && (exists self: Target, now :: self.node != "" && states[0] == Start(self, now))
    && forall i :: 0 <= i < |events| ==> Enabled(states[i], events[i]) && states[i + 1] == Next(states[i], events[i])
  }

  lemma StartIsInv(events: seq<Event>, states: seq<State>)
    requires IsRun(events, states)
    ensures Inv(states[0])
  {
    var self: Target, now :| self.node != "" && states[0] == Start(self, now);
    StartIsFine(self, now);
  }

  lemma StartIsFine(self: Target, now: int)
    requires self.node != ""
    ensures Inv(Start(self, now))
  {
  }

  lemma {:induction false} RunKeepsInv(events: seq<Event>, states: seq<State>, k: nat)
    requires IsRun(events, states) && k < |states|
    ensures Inv(states[k])
    decreases k
  {
    if k == 0 {
      StartIsInv(events, states);
    } else {
      RunKeepsInv(events, states, k - 1);
      hide Inv, Next;
      assert states[k - 1 + 1] == Next(states[k - 1], events[k - 1]);
      NextKeepsInv(states[k - 1], events[k - 1]);
    }
  }

  lemma RunStep(events: seq<Event>, states: seq<State>, k: nat)
    requires IsRun(events, states) && k + 1 < |states|
    ensures k < |events| && Inv(states[k]) && Enabled(states[k], events[k])
    ensures states[k + 1] == Next(states[k], events[k])
  {
    RunKeepsInv(events, states, k);
  }

  /** What holds of the counters and gauges at every point of every run. */
  lemma EveryRunKeepsSeries(events: seq<Event>, states: seq<State>, k: nat)
    requires IsRun(events, states) && k < |states|
    ensures var a := states[k];
      && (forall x :: x in a.series ==> x in Pairs(a.peers) || (x.0 in a.departed && x.1 == a.departed[x.0].zone))
      && a.departed.Keys !! Names(a.peers) && a.gauges <= Pairs(a.peers)
      && forall n :: n in a.departed ==> a.lastSweep - a.departed[n].at < 600_000_000_000
    ensures k > 0 && events[k - 1].Swept? ==>
      forall n :: n in states[k].departed ==> states[k].now - states[k].departed[n].at < 600_000_000_000
    ensures !states[k].rejoining && states[k].controllerPeers.Some? ==>
      states[k].peers == WithoutSelf(states[k].self, states[k].controllerPeers.value)
  {
    RunKeepsInv(events, states, k);
    if k > 0 && events[k - 1].Swept? {
      assert states[k - 1 + 1] == Next(states[k - 1], events[k - 1]);
    }
  }

  /** Outside a rejoin the agent probes exactly the entries of the newest list that are not itself, by id,
      node name or, if it has one, address. */
  lemma EveryRunProbesTheList(events: seq<Event>, states: seq<State>, k: nat, p: Target)
    requires IsRun(events, states) && k < |states| && !states[k].rejoining && states[k].controllerPeers.Some?
    ensures var a := states[k];
      p in a.peers <==>
        (p in a.controllerPeers.value && p.agentId != a.self.agentId && p.node != a.self.node
         && (a.self.ip == "" || p.ip != a.self.ip))
  {
    RunKeepsInv(events, states, k);
    WithoutSelfHas(states[k].self, states[k].controllerPeers.value);
  }

  /** Some round sent the probe to a peer of its list. */
  ghost predicate WasSent(events: seq<Event>, states: seq<State>, k: nat, p: Probe)
    requires k <= |events| && k <= |states|
  {
    exists i :: 0 <= i < k && events[i].Round? && p.target in states[i].peers && p.gen == states[i].gen
  }

  lemma WasSentNext(events: seq<Event>, states: seq<State>, k: nat, p: Probe)
    requires k < |events| && k < |states|
    ensures WasSent(events, states, k + 1, p) <==>
      WasSent(events, states, k, p) || (events[k].Round? && p.target in states[k].peers && p.gen == states[k].gen)
  {
  }

  /** Results can come of exactly those probes. */
  lemma {:induction false} EveryProbeWasSent(events: seq<Event>, states: seq<State>, k: nat, p: Probe)
    requires IsRun(events, states) && k < |states|
    ensures k <= |events| && (p in states[k].probes <==> WasSent(events, states, k, p))
    decreases k
  {
    if k == 0 {
      NothingSent(events, states);
    } else {
      hide IsRun, Inv, Enabled, Next, WasSent;
      EveryProbeWasSent(events, states, k - 1, p);
      RunStep(events, states, k - 1);
      ProbeStep(states[k - 1], events[k - 1], p);
      WasSentNext(events, states, k - 1, p);
    }
  }

  lemma NothingSent(events: seq<Event>, states: seq<State>)
    requires IsRun(events, states)
    ensures states[0].probes == {}
  {
  }

  lemma ProbeStep(a: State, e: Event, p: Probe)
    ensures p in Next(a, e).probes <==> p in a.probes || (e.Round? && p.target in a.peers && p.gen == a.gen)
  {
  }

  /** A late result writes a pair of the current list or nothing. */
  lemma NothingIsWrittenBack(events: seq<Event>, states: seq<State>, k: nat)
    requires IsRun(events, states) && k < |events| && events[k].Result?
    ensures var pair := (events[k].probe.target.node, events[k].probe.target.zone);
      if pair in Pairs(states[k].peers) then
        states[k + 1] == states[k].(series := states[k].series + {pair}, gauges := states[k].gauges + {pair})
      else states[k + 1] == states[k]
  {
    RunStep(events, states, k);
    hide IsRun, Pairs;
    DeliveryIsExact(states[k], events[k].probe);
    hide Inv;
  }

  // ---- no counter of a probed peer is lost ----

  /** A list that probes the pair gives its name this zone, first and last. */
  lemma ProbedZoneIs(self: Target, next: seq<Target>, x: Pair)
    requires self.node != "" && Proper(self, next) && x in Pairs(WithoutSelf(self, next))
    ensures x.0 in Names(next) && FirstZone(next, x.0) == x.1 && x.0 in Zones(next) && Zones(next)[x.0] == x.1
  {
    WithoutSelfHas(self, next);
    ZonesHas(next);
    hide FirstZone, Zones;
    var p :| p in WithoutSelf(self, next) && (p.node, p.zone) == x;
    assert p.node in Names(next) && p.node != self.node;
    ProbedUnder(WithoutSelf(self, next), p, FirstZone(next, x.0));
    ProbedUnder(WithoutSelf(self, next), p, Zones(next)[x.0]);
  }

  lemma ProbedUnder(list: seq<Target>, p: Target, zone: string)
    requires OneZone(list) && p in list && (p.node, zone) in Pairs(list)
    ensures zone == p.zone
  {
    assert Agrees(list, p);
  }

  lemma SwapKeepsProbed(a: State, next: seq<Target>, x: Pair)
    requires ListInv(a) && Proper(a.self, next) && x in Pairs(WithoutSelf(a.self, next))
    ensures x in a.series ==> x in Swap(a, next).series
    ensures x in a.gauges ==> x in Swap(a, next).gauges
  {
    ProbedZoneIs(a.self, next, x);
    hide OneZone, WithoutSelf, FirstZone, Zones;
    assert x !in Moved(a.peers, next) && x !in BackElsewhere(a.departed, next) && x.0 !in Gone(a.peers, next);
  }

  /** No step takes a counter or a gauge from a pair it leaves on the list: a peer that stays, or comes back
      under its zone, keeps them. */
  lemma StepKeepsProbed(a: State, e: Event, x: Pair)
    requires Inv(a) && Enabled(a, e) && x in Pairs(Next(a, e).peers)
    ensures x in a.series ==> x in Next(a, e).series
    ensures x in a.gauges ==> x in Next(a, e).gauges
  {
    match e
    case List(next) => TakeListKeepsProbed(a, next, x);
    case End(timer) =>
      if timer == a.rejoinGen && a.rejoining && a.controllerPeers.Some? {
        SwapKeepsProbed(a.(rejoining := false), a.controllerPeers.value, x);
      }
    case Swept => assert x.0 in Names(a.peers);
    case _ =>
  }

  lemma TakeListKeepsProbed(a: State, next: seq<Target>, x: Pair)
    requires Inv(a) && Proper(a.self, next) && x in Pairs(TakeList(a, next).peers)
    ensures x in a.series ==> x in TakeList(a, next).series
    ensures x in a.gauges ==> x in TakeList(a, next).gauges
  {
    hide BackElsewhere, Moved, Gone, DropNames, Zones, Pairs, Names, Proper, WithoutSelf, Merged, RejoinInv;
    var b := a.(controllerPeers := Some(next));
    if a.rejoining {
      MergedIsProper(a.self, next, a.peers);
      SwapKeepsProbed(b, Merged(next, a.peers), x);
    } else {
      SwapKeepsProbed(b, next, x);
    }
  }

  /** In every run a counter or a gauge lives on from i to j while its pair is on the list. */
  lemma {:induction false} ProbedKeepsSeries(events: seq<Event>, states: seq<State>, i: nat, j: nat, x: Pair)
    requires IsRun(events, states) && i <= j < |states|
    requires forall k :: i < k <= j ==> x in Pairs(states[k].peers)
    ensures x in states[i].series ==> x in states[j].series
    ensures x in states[i].gauges ==> x in states[j].gauges
    decreases j
  {
    hide IsRun, Inv, Enabled, Next, Pairs;
    if i < j {
      ProbedKeepsSeries(events, states, i, j - 1, x);
      RunStep(events, states, j - 1);
      StepKeepsProbed(states[j - 1], events[j - 1], x);
    }
  }

  // ---- the grace of a departed peer ----

  /** The peer is gone, with this record, and this counter of it is still served. */
  ghost predicate InGrace(a: State, x: Pair, d: Departed) {
    x in a.series && x.0 in a.departed && a.departed[x.0] == d
  }

  lemma SwapKeepsGrace(a: State, next: seq<Target>, x: Pair, d: Departed)
    requires ListInv(a) && SeriesInv(a) && Proper(a.self, next) && InGrace(a, x, d)
    requires x.0 !in Names(WithoutSelf(a.self, next))
    ensures InGrace(Swap(a, next), x, d)
  {
    UnprobedIsUnnamed(a.self, next, x.0);
    hide OneZone, WithoutSelf, FirstZone;
    ZonesHas(next);
    assert x !in Moved(a.peers, next) && x !in BackElsewhere(a.departed, next);
  }

  /** A proper list probes every other node it names. */
  lemma UnprobedIsUnnamed(self: Target, next: seq<Target>, n: string)
    requires Proper(self, next) && n != self.node && n !in Names(WithoutSelf(self, next))
    ensures n !in Names(next)
  {
    ZonesHas(next);
    hide OneZone, WithoutSelf, FirstZone;
    assert n in Zones(next) ==> (n, Zones(next)[n]) in Pairs(WithoutSelf(self, next));
  }

  lemma TakeListKeepsGrace(a: State, next: seq<Target>, x: Pair, d: Departed)
    requires Inv(a) && Proper(a.self, next) && InGrace(a, x, d) && x.0 !in Names(TakeList(a, next).peers)
    ensures InGrace(TakeList(a, next), x, d)
  {
    var b := a.(controllerPeers := Some(next));
    if a.rejoining {
      MergedIsProper(a.self, next, a.peers);
      SwapKeepsGrace(b, Merged(next, a.peers), x, d);
    } else {
      SwapKeepsGrace(b, next, x, d);
    }
  }

  lemma EndKeepsGrace(a: State, gen: nat, x: Pair, d: Departed)
    requires Inv(a) && InGrace(a, x, d) && x.0 !in Names(RejoinEnded(a, gen).peers)
    ensures InGrace(RejoinEnded(a, gen), x, d)
  {
    if gen == a.rejoinGen && a.rejoining && a.controllerPeers.Some? {
      SwapKeepsGrace(a.(rejoining := false), a.controllerPeers.value, x, d);
    }
  }

  /** No step ends the grace of a peer that is not probed again before ten minutes have passed. */
  lemma StepKeepsGrace(a: State, e: Event, x: Pair, d: Departed)
    requires Inv(a) && Enabled(a, e) && InGrace(a, x, d)
    requires Next(a, e).now - d.at < 600_000_000_000 && x.0 !in Names(Next(a, e).peers)
    ensures InGrace(Next(a, e), x, d)
  {
    match e
    case List(next) => TakeListKeepsGrace(a, next, x, d);
    case End(timer) => EndKeepsGrace(a, timer, x, d);
    case _ =>
  }

  lemma TimePasses(a: State, e: Event)
    ensures Next(a, e).now == a.now + if e.Tick? then e.step else 0
  {
  }

  /** The counters of a departed peer are served for ten minutes after it left, unless it is back. */
  lemma {:induction false} GraceIsKept(events: seq<Event>, states: seq<State>, i: nat, j: nat, x: Pair, d: Departed)
    requires IsRun(events, states) && i <= j < |states| && InGrace(states[i], x, d)
    requires states[j].now - d.at < 600_000_000_000
    requires forall k :: i < k <= j ==> x.0 !in Names(states[k].peers)
    ensures InGrace(states[j], x, d)
    decreases j
  {
    hide IsRun, Inv, Enabled, Next, InGrace, Names;
    if i < j {
      RunStep(events, states, j - 1);
      TimePasses(states[j - 1], events[j - 1]);
      GraceIsKept(events, states, i, j - 1, x, d);
      StepKeepsGrace(states[j - 1], events[j - 1], x, d);
    }
  }

  lemma SwapStartsGrace(a: State, next: seq<Target>, x: Pair)
    requires ListInv(a) && SeriesInv(a) && Proper(a.self, next) && x in a.series && x in Pairs(a.peers)
    requires x.0 !in Names(WithoutSelf(a.self, next))
    ensures InGrace(Swap(a, next), x, Departed(a.now, x.1))
  {
    var p :| p in a.peers && (p.node, p.zone) == x;
    assert x.0 in Names(a.peers) && x.0 != a.self.node;
    UnprobedIsUnnamed(a.self, next, x.0);
    ZoneIs(a.peers, p);
    ZonesHas(next);
    hide OneZone, WithoutSelf;
    assert x !in Moved(a.peers, next) && x !in BackElsewhere(a.departed, next);
  }

  lemma TakeListStartsGrace(a: State, next: seq<Target>, x: Pair)
    requires Inv(a) && Proper(a.self, next) && x in a.series && x in Pairs(a.peers)
    requires x.0 !in Names(TakeList(a, next).peers)
    ensures InGrace(TakeList(a, next), x, Departed(a.now, x.1))
  {
    hide BackElsewhere, Moved, Gone, DropNames, Zones, Pairs, Names, InGrace, Proper, WithoutSelf, Merged, RejoinInv;
    var b := a.(controllerPeers := Some(next));
    if a.rejoining {
      MergedIsProper(a.self, next, a.peers);
      SwapStartsGrace(b, Merged(next, a.peers), x);
    } else {
      SwapStartsGrace(b, next, x);
    }
  }

  lemma EndStartsGrace(a: State, gen: nat, x: Pair)
    requires Inv(a) && x in a.series && x in Pairs(a.peers) && x.0 !in Names(RejoinEnded(a, gen).peers)
    ensures InGrace(RejoinEnded(a, gen), x, Departed(a.now, x.1))
  {
    assert x.0 in Names(a.peers);
    if a.controllerPeers.Some? {
      SwapStartsGrace(a.(rejoining := false), a.controllerPeers.value, x);
    }
  }

  /** A step that takes a probed peer off the list starts its grace. */
  lemma StepStartsGrace(a: State, e: Event, x: Pair)
    requires Inv(a) && Enabled(a, e) && x in a.series && x in Pairs(a.peers) && x.0 !in Names(Next(a, e).peers)
    ensures InGrace(Next(a, e), x, Departed(a.now, x.1))
  {
    assert x.0 in Names(a.peers);
    hide Inv, TakeList, RejoinEnded, Names, Pairs, InGrace, Proper;
    match e
    case List(next) => TakeListStartsGrace(a, next, x);
    case End(timer) => EndStartsGrace(a, timer, x);
    case _ =>
  }

  /** In every run: a counter of a probed peer that leaves at step i is still served at every point
      within ten minutes of it at which the peer has not been probed again. */
  lemma CountersOutliveDeparture(events: seq<Event>, states: seq<State>, i: nat, j: nat, x: Pair)
    requires IsRun(events, states) && i < j < |states|
    requires x in states[i].series && x in Pairs(states[i].peers)
    requires states[j].now - states[i].now < 600_000_000_000
    requires forall k :: i < k <= j ==> x.0 !in Names(states[k].peers)
    ensures x in states[j].series && x.0 in states[j].departed && states[j].departed[x.0].at == states[i].now
  {
    RunStep(events, states, i);
    assert x.0 !in Names(states[i + 1].peers);
    hide IsRun, Inv, Enabled, Next, Names, Pairs;
    StepStartsGrace(states[i], events[i], x);
    GraceIsKept(events, states, i + 1, j, x, Departed(states[i].now, x.1));
  }

  // ---- the rejoin grace ----

  /** While rejoining no name leaves, and a list's names come in. */
  lemma StepKeepsNames(a: State, e: Event)
    requires Inv(a) && Enabled(a, e) && a.rejoining && Next(a, e).rejoining
    ensures Names(a.peers) <= Names(Next(a, e).peers)
    ensures e.List? ==> Names(WithoutSelf(a.self, e.next)) <= Names(Next(a, e).peers)
  {
    if e.List? {
      TakeListKeepsInv(a, e.next);
    }
  }

  /** From i to j inside one grace: whoever was probed still is. */
  lemma {:induction false} RejoinOnlyAdds(events: seq<Event>, states: seq<State>, i: nat, j: nat)
    requires IsRun(events, states) && i <= j < |states|
    requires forall k :: i <= k <= j ==> states[k].rejoining
    ensures Names(states[i].peers) <= Names(states[j].peers)
    decreases j
  {
    hide IsRun, Inv, Enabled, Names, WithoutSelf, Next;
    if i < j {
      RejoinOnlyAdds(events, states, i, j - 1);
      RunStep(events, states, j - 1);
      StepKeepsNames(states[j - 1], events[j - 1]);
    }
  }

  /** And so is whoever a list named meanwhile. */
  lemma RejoinTakesInLists(events: seq<Event>, states: seq<State>, k: nat, j: nat)
    requires IsRun(events, states) && k < j < |states| && events[k].List?
    requires forall i :: k <= i <= j ==> states[i].rejoining
    ensures Names(WithoutSelf(states[k].self, events[k].next)) <= Names(states[j].peers)
  {
    RejoinOnlyAdds(events, states, k + 1, j);
    RunStep(events, states, k);
    hide IsRun, Inv, Enabled, Names, WithoutSelf, Next;
    StepKeepsNames(states[k], events[k]);
  }

  lemma StepOfRejoin(a: State, e: Event)
    ensures a.rejoinGen <= Next(a, e).rejoinGen
    ensures a.rejoining && !Next(a, e).rejoining ==> e == End(a.rejoinGen)
  {
  }

  lemma {:induction false} GenerationsGrow(events: seq<Event>, states: seq<State>, i: nat, j: nat)
    requires IsRun(events, states) && i <= j < |states|
    ensures states[i].rejoinGen <= states[j].rejoinGen
    decreases j
  {
    hide IsRun, Inv, Enabled, Next;
    if i < j {
      GenerationsGrow(events, states, i, j - 1);
      RunStep(events, states, j - 1);
      StepOfRejoin(states[j - 1], events[j - 1]);
    }
  }

  /** How many rejoins have begun. */
  ghost function Begun(events: seq<Event>, n: nat): nat
    requires n <= |events|
  {
    if n == 0 then 0 else Begun(events, n - 1) + if events[n - 1].Begin? then 1 else 0
  }

  /** A rejoin has begun, and its own timer has not fired since. */
  ghost predicate Underway(events: seq<Event>, n: nat)
    requires n <= |events|
  {
    n > 0 && (events[n - 1].Begin? || (Underway(events, n - 1) && events[n - 1] != End(Begun(events, n - 1))))
  }

  /** In every run the agent rejoins from a beginning to the timer of the newest one. */
  lemma {:induction false} EveryRejoinEndsOnTime(events: seq<Event>, states: seq<State>, n: nat)
    requires IsRun(events, states) && n < |states|
    ensures states[n].rejoinGen == Begun(events, n) && (states[n].rejoining <==> Underway(events, n))
  {
    if n > 0 {
      hide IsRun, Inv, Enabled, Next;
      EveryRejoinEndsOnTime(events, states, n - 1);
      RunStep(events, states, n - 1);
      RejoinStep(states[n - 1], events[n - 1]);
    }
  }

  lemma RejoinStep(a: State, e: Event)
    ensures Next(a, e).rejoinGen == a.rejoinGen + if e.Begin? then 1 else 0
    ensures Next(a, e).rejoining <==> e.Begin? || (a.rejoining && e != End(a.rejoinGen))
  {
  }

  ghost predicate EndsIt(a: State, e: Event) {
    a.rejoining && e == End(a.rejoinGen)
  }

  /** Only the timer of the rejoin in progress ends it: no timer from before state i does. */
  lemma {:induction false} OnlyItsTimerEndsARejoin(events: seq<Event>, states: seq<State>, i: nat, j: nat)
    requires IsRun(events, states) && i <= j < |states| && states[i].rejoining && !states[j].rejoining
    ensures exists k ::
      i <= k < j && k < |events| && EndsIt(states[k], events[k]) && states[i].rejoinGen <= states[k].rejoinGen
    decreases j
  {
    hide IsRun, Inv, Enabled, Next;
    if i < j {
      GenerationsGrow(events, states, i, j - 1);
      RunStep(events, states, j - 1);
      if states[j - 1].rejoining {
        StepOfRejoin(states[j - 1], events[j - 1]);
      } else {
        OnlyItsTimerEndsARejoin(events, states, i, j - 1);
      }
    }
  }

  // ---- which lists are safe ----

  /** Applying the list, and dropping every peer afterwards, leaves no stray series. */
  ghost predicate LeavesNoStray(a: State, next: seq<Target>) {
    SeriesInv(Applied(a, next)) && SeriesInv(Swap(Applied(a, next), []))
  }

  lemma ProperLeavesNoStray(a: State, next: seq<Target>)
    requires Inv(a) && Proper(a.self, next)
    ensures LeavesNoStray(a, next)
  {
    SwapKeeps(a, next);
    SweepKeeps(Swap(a, next));
    SwapKeepsSeries(Applied(a, next), []);
  }

  ghost predicate Reachable(a: State) {
    exists events, states :: IsRun(events, states) && states[|states| - 1] == a
  }

  lemma StartIsReached(self: Target)
    requires self.node != ""
    ensures Reachable(Start(self, 0))
  {
    assert IsRun([], [Start(self, 0)]) && [Start(self, 0)][|[Start(self, 0)]| - 1] == Start(self, 0);
  }

  lemma ReachNext(a: State, e: Event)
    requires Reachable(a) && Enabled(a, e)
    ensures Reachable(Next(a, e))
  {
    hide Enabled, Next;
    var events, states :| IsRun(events, states) && states[|states| - 1] == a;
    var more, longer := events + [e], states + [Next(a, e)];
    forall i | 0 <= i < |more| ensures Enabled(longer[i], more[i]) && longer[i + 1] == Next(longer[i], more[i]) {
      if i < |events| {
        assert longer[i] == states[i] && longer[i + 1] == states[i + 1] && more[i] == events[i];
      }
    }
    assert longer[0] == states[0];
    assert IsRun(more, longer) && longer[|longer| - 1] == Next(a, e);
  }

  lemma ReachedIsInv(a: State)
    requires Reachable(a)
    ensures Inv(a)
  {
    hide Inv;
    var events, states :| IsRun(events, states) && states[|states| - 1] == a;
    RunKeepsInv(events, states, |states| - 1);
  }

  /** Another node n in a zone. */
  function Other(self: Target, n: string, zone: string): Target {
    Target(self.agentId + "x", n, self.ip + "x", zone, 0, 0)
  }

  /** An agent that was given node n under the zone, and one that was given it and lost it again. */
  function Probing(self: Target, n: string, zone: string): State {
    var q := Other(self, n, zone);
    Start(self, 0).(peers := [q], gen := 1, zones := map[n := zone], series := {(n, zone)},
                    controllerPeers := Some([q]))
  }

  function Missing(self: Target, n: string, zone: string): State {
    Start(self, 0).(gen := 2, departed := map[n := Departed(0, zone)], series := {(n, zone)},
                    controllerPeers := Some([]))
  }

  lemma OneEntry(q: Target)
    ensures Zones([q]) == map[q.node := q.zone] && Pairs([q]) == {(q.node, q.zone)} && Names([q]) == {q.node}
    ensures FirstZone([q], q.node) == q.zone && OneZone([q])
  {
    assert [q][..0] == [];
  }

  lemma OtherStays(self: Target, n: string, zone: string)
    requires self.node != "" && n != self.node
    ensures var q := Other(self, n, zone); WithoutSelf(self, [q]) == [q]
  {
    var q := Other(self, n, zone);
    assert |q.agentId| != |self.agentId| && |q.ip| != |self.ip|;
    assert [q][..0] == [];
  }

  lemma OtherIsProper(self: Target, n: string, zone: string)
    requires self.node != "" && n != self.node
    ensures var q := Other(self, n, zone);
      && WithoutSelf(self, [q]) == [q] && Zones([q]) == map[n := zone] && Pairs([q]) == {(n, zone)}
      && Names([q]) == {n} && FirstZone([q], n) == zone && Proper(self, [q])
  {
    OneEntry(Other(self, n, zone));
    OtherStays(self, n, zone);
    hide WithoutSelf, Zones, Pairs, Names, FirstZone, OneZone;
  }

  lemma ProbingIsReached(self: Target, n: string, zone: string)
    requires self.node != "" && n != self.node
    ensures Reachable(Probing(self, n, zone))
  {
    var a, q := Start(self, 0), Other(self, n, zone);
    StartIsReached(self);
    OtherIsProper(self, n, zone);
    hide Reachable, Proper, WithoutSelf, Zones, Names, Pairs;
    ReachNext(a, List([q]));
    NothingToForget(a, [q]);
    var b := Next(a, List([q]));
    assert b == Probing(self, n, zone).(series := {});
    ReachNext(b, Synced);
    assert Next(b, Synced) == Probing(self, n, zone);
  }

  lemma NothingToForget(a: State, next: seq<Target>)
    requires a.peers == [] && a.departed == map[] && a.series == {} && a.gauges == {}
    ensures Forget(a, next) == a
  {
  }

  lemma MissingIsReached(self: Target, n: string, zone: string)
    requires self.node != "" && n != self.node
    ensures Reachable(Missing(self, n, zone))
  {
    var a := Probing(self, n, zone);
    ProbingIsReached(self, n, zone);
    OtherIsProper(self, n, zone);
    LosingIt(self, n, zone);
    assert Proper(self, []);
    hide Reachable, Proper, Forget;
    ReachNext(a, List([]));
    assert Next(a, List([])) == Missing(self, n, zone);
  }

  lemma LosingIt(self: Target, n: string, zone: string)
    requires self.node != "" && n != self.node
    ensures Forget(Probing(self, n, zone).(controllerPeers := Some([])), []) ==
      Probing(self, n, zone).(controllerPeers := Some([]), departed := map[n := Departed(0, zone)])
  {
    var a := Probing(self, n, zone);
    OtherIsProper(self, n, zone);
    hide Zones, FirstZone;
    assert Names([]) == {} && Gone(a.peers, []) == {n};
    assert Zones([]) == map[] by { ZonesHas([]); }
    assert Moved(a.peers, []) == {} && BackElsewhere(a.departed, []) == {};
  }

  /** The zone of the name's last entry is not probed: a peer that had it leaves its series behind. */
  lemma LastZoneLeavesStray(self: Target, next: seq<Target>, n: string)
    requires self.node != "" && n != self.node && n in Zones(next)
    requires (n, Zones(next)[n]) !in Pairs(WithoutSelf(self, next))
    ensures Reachable(Probing(self, n, Zones(next)[n])) && !LeavesNoStray(Probing(self, n, Zones(next)[n]), next)
  {
    ProbingIsReached(self, n, Zones(next)[n]);
    hide Reachable;
    var a := Probing(self, n, Zones(next)[n]);
    ZonesHas(next);
    assert (n, Zones(next)[n]) !in Moved(a.peers, next);
    assert (n, Zones(next)[n]) in Applied(a, next).series;
  }

  /** Nor the zone of its first: a peer that left from there does. */
  lemma FirstZoneLeavesStray(self: Target, next: seq<Target>, n: string)
    requires self.node != "" && n != self.node && n in Zones(next)
    requires (n, FirstZone(next, n)) !in Pairs(WithoutSelf(self, next))
    ensures Reachable(Missing(self, n, FirstZone(next, n)))
    ensures !LeavesNoStray(Missing(self, n, FirstZone(next, n)), next)
  {
    MissingIsReached(self, n, FirstZone(next, n));
    ZonesHas(next);
    hide Reachable, WithoutSelf, Zones, FirstZone, Names;
    var a, x := Missing(self, n, FirstZone(next, n)), (n, FirstZone(next, n));
    assert x !in BackElsewhere(a.departed, next) && x !in Moved(a.peers, next);
    var b := Forget(a, next);
    assert x in b.series && n !in b.departed;
    hide Forget;
    assert x in Applied(a, next).series;
  }

  /** Two probed zones under one name: one is lost sight of when the name leaves. */
  lemma TwoZonesLeaveStray(self: Target, next: seq<Target>, p: Target, q: Target)
    requires p in WithoutSelf(self, next) && q in WithoutSelf(self, next) && p.node == q.node && p.zone != q.zone
    ensures !LeavesNoStray(Start(self, 0), next)
  {
    var b := Applied(Start(self, 0), next);
    assert (p.node, p.zone) in b.series && (q.node, q.zone) in b.series;
    DroppedKeepsSeries(b);
    hide Applied, Forget, WithoutSelf;
    var c := Swap(b, []);
    assert (p.node, p.zone) in c.series && (q.node, q.zone) in c.series;
  }

  /** Dropping every peer retires no counter. */
  lemma DroppedKeepsSeries(a: State)
    ensures Swap(a, []).series == a.series && Pairs(Swap(a, []).peers) == {}
  {
    assert Zones([]) == map[] && Names([]) == {};
    assert Moved(a.peers, []) == {} && BackElsewhere(a.departed, []) == {};
  }

  /** Exactly the proper lists keep the series invariant in every state a run can reach. */
  lemma ProperIsExact(self: Target, next: seq<Target>)
    requires self.node != ""
    ensures Proper(self, next) <==> forall a :: Reachable(a) && a.self == self ==> LeavesNoStray(a, next)
  {
    hide Proper, Reachable, LeavesNoStray;
    if Proper(self, next) {
      forall a | Reachable(a) && a.self == self ensures LeavesNoStray(a, next) {
        ReachedIsInv(a);
        ProperLeavesNoStray(a, next);
      }
    } else {
      ImproperLeavesStray(self, next);
    }
  }

  lemma ImproperLeavesStray(self: Target, next: seq<Target>)
    requires self.node != "" && !Proper(self, next)
    ensures exists a :: Reachable(a) && a.self == self && !LeavesNoStray(a, next)
  {
    hide LeavesNoStray, Reachable;
    if !OneZone(WithoutSelf(self, next)) {
      var p :| p in WithoutSelf(self, next) && !Agrees(WithoutSelf(self, next), p);
      var q :| q in WithoutSelf(self, next) && q.node == p.node && q.zone != p.zone;
      TwoZonesLeaveStray(self, next, p, q);
      StartIsReached(self);
    } else {
      var n :| n in Zones(next) && n != self.node
        && ((n, Zones(next)[n]) !in Pairs(WithoutSelf(self, next))
            || (n, FirstZone(next, n)) !in Pairs(WithoutSelf(self, next)));
      if (n, Zones(next)[n]) !in Pairs(WithoutSelf(self, next)) {
        LastZoneLeavesStray(self, next, n);
      } else {
        FirstZoneLeavesStray(self, next, n);
      }
    }
  }

  /** Distinct names, and no other node under the agent's id or address, are enough. */
  lemma PlainListsAreProper(self: Target, list: seq<Target>)
    requires forall i, j :: 0 <= i < j < |list| ==> list[i].node != list[j].node
    requires forall p :: p in list && IsSelf(self, p) ==> p.node == self.node
    ensures Proper(self, list)
  {
    WithoutSelfHas(self, list);
    ZonesHas(list);
    forall n | n in Zones(list) && n != self.node ensures
      (n, Zones(list)[n]) in Pairs(WithoutSelf(self, list)) && (n, FirstZone(list, n)) in Pairs(WithoutSelf(self, list))
    {
      FirstZoneHas(list, n);
    }
  }

  // ---- the loops, one entry at a time ----

  lemma FirstZoneAt(list: seq<Target>, p: Target, n: string)
    requires n in Names(list) || n == p.node
    ensures FirstZone(list + [p], n) == if n in Names(list) then FirstZone(list, n) else p.zone
  {
    if n in Names(list) {
      FirstZoneExtends(list, [p], n);
    } else {
      FirstZoneSkips(list, p, n);
    }
  }

  lemma {:induction false} FirstZoneSkips(list: seq<Target>, p: Target, n: string)
    requires n !in Names(list) && n == p.node
    ensures FirstZone(list + [p], n) == p.zone
  {
    if list != [] {
      assert list == [list[0]] + list[1..] && (list + [p])[1..] == list[1..] + [p];
      assert list[0].node in Names(list) && Names(list[1..]) <= Names(list);
      FirstZoneSkips(list[1..], p, n);
    }
  }

  lemma NamesAt(list: seq<Target>, p: Target)
    ensures Names(list + [p]) == Names(list) + {p.node} && Pairs(list + [p]) == Pairs(list) + {(p.node, p.zone)}
    ensures Zones(list + [p]) == Zones(list)[p.node := p.zone]
  {
    assert (list + [p])[..|list|] == list;
  }

  /** A departed peer's first entry in the new list is under another zone. */
  predicate ComesBackElsewhere(departed: map<string, Departed>, list: seq<Target>, p: Target) {
    p.node in departed && p.node !in Names(list) && departed[p.node].zone != p.zone
  }

  /** What one more entry of the new list retires. */
  lemma BackElsewhereAt(departed: map<string, Departed>, list: seq<Target>, p: Target)
    ensures var more := BackElsewhere(departed, list + [p]); var less := BackElsewhere(departed, list);
      if ComesBackElsewhere(departed, list, p) then more == less + {(p.node, departed[p.node].zone)}
      else more == less
  {
    NamesAt(list, p);
    FirstZoneAt(list, p, p.node);
    forall n | n in departed && n in Names(list) ensures FirstZone(list + [p], n) == FirstZone(list, n) {
      FirstZoneAt(list, p, n);
    }
    hide Names, FirstZone;
    var more, less := BackElsewhere(departed, list + [p]), BackElsewhere(departed, list);
    forall x: Pair
      ensures x in more <==>
        x in less || (ComesBackElsewhere(departed, list, p) && x == (p.node, departed[p.node].zone))
    {
    }
  }

  function Leaving(departed: map<string, Departed>, peers: seq<Target>, next: seq<Target>,
                   now: int): map<string, Departed> {
    map n | n in Gone(peers, next) && n !in departed :: Departed(now, FirstZone(peers, n))
  }

  lemma FirstZonesAt(list: seq<Target>, p: Target)
    ensures forall n :: n in Names(list) ==> FirstZone(list + [p], n) == FirstZone(list, n)
    ensures p.node !in Names(list) ==> FirstZone(list + [p], p.node) == p.zone
  {
    hide Names, FirstZone;
    FirstZoneAt(list, p, p.node);
    forall n | n in Names(list) ensures FirstZone(list + [p], n) == FirstZone(list, n) {
      FirstZoneAt(list, p, n);
    }
  }

  /** What one more entry of the old list does to the departed. */
  lemma LeavingAt(departed: map<string, Departed>, list: seq<Target>, p: Target, next: seq<Target>, now: int)
    ensures
      var more := departed + Leaving(departed, list + [p], next, now);
      var less := departed + Leaving(departed, list, next, now);
      if p.node !in Names(next) && p.node !in less then more == less[p.node := Departed(now, p.zone)]
      else more == less
  {
    NamesAt(list, p);
    FirstZonesAt(list, p);
    hide Names, FirstZone;
    var more, less := Leaving(departed, list + [p], next, now), Leaving(departed, list, next, now);
    if p.node !in Names(next) && p.node !in departed && p.node !in less {
      assert more.Keys == less.Keys + {p.node};
    } else {
      assert more.Keys == less.Keys;
    }
  }

  lemma MovedAt(list: seq<Target>, p: Target, next: seq<Target>)
    ensures Moved(list + [p], next) ==
      Moved(list, next) + if p.node in Zones(next) && Zones(next)[p.node] != p.zone then {(p.node, p.zone)} else {}
    ensures Gone(list + [p], next) == Gone(list, next) + if p.node in Names(next) then {} else {p.node}
  {
    NamesAt(list, p);
  }

  /** And to the gauges. */
  lemma GaugesAt(gauges: set<Pair>, list: seq<Target>, p: Target, next: seq<Target>)
    ensures
      var more := DropNames(gauges - Moved(list + [p], next), Gone(list + [p], next));
      var less := DropNames(gauges - Moved(list, next), Gone(list, next));
      more == if p.node !in Names(next) then DropNames(less, {p.node})
              else if p.node in Zones(next) && Zones(next)[p.node] != p.zone then less - {(p.node, p.zone)}
              else less
  {
    MovedAt(list, p, next);
    ZonesHas(next);
    hide Moved, Gone, Zones, Names;
  }

  lemma NoneYet(departed: map<string, Departed>, gauges: set<Pair>, list: seq<Target>, next: seq<Target>, now: int)
    requires list == []
    ensures Leaving(departed, list, next, now) == map[] && Moved(list, next) == {}
    ensures DropNames(gauges - {}, Gone(list, next)) == gauges
    ensures BackElsewhere(departed, list) == {} && Names(list) == {} && Zones(list) == map[]
  {
  }

  // ---- the objects ----

  class Scheduler {
    const self: Target
    var peers: seq<Target>
    var gen: nat
    var zones: map<string, string>

    constructor (self: Target)
      ensures this.self == self && peers == [] && gen == 0 && zones == map[]
    {
      this.self, peers, gen, zones := self, [], 0, map[];
    }

    /** The swap itself, once the old list's series are retired. */
    method ReplacePeers(next: seq<Target>)
      modifies this
      ensures peers == WithoutSelf(self, next) && gen == old(gen) + 1 && zones == Zones(peers)
    {
      var filtered := [];
      for i := 0 to |next|
        invariant filtered == WithoutSelf(self, next[..i])
      {
        assert next[..i + 1][..i] == next[..i];
        if !IsSelf(self, next[i]) {
          filtered := filtered + [next[i]];
        }
      }
      assert next[..|next|] == next;
      peers, gen, zones := filtered, gen + 1, map[];
      for i := 0 to |filtered|
        invariant zones == Zones(filtered[..i]) && peers == filtered && gen == old(gen) + 1
      {
        NamesAt(filtered[..i], filtered[i]);
        assert filtered[..i + 1] == filtered[..i] + [filtered[i]];
        zones := zones[filtered[i].node := filtered[i].zone];
      }
      assert filtered[..|filtered|] == filtered;
    }

    method StillAssigned(p: Probe) returns (ok: bool)
      ensures ok <==> gen == p.gen || (p.target.node in zones && zones[p.target.node] == p.target.zone)
      ensures OneZone(peers) && zones == Zones(peers) && (p.gen == gen ==> p.target in peers) ==>
        (ok <==> (p.target.node, p.target.zone) in Pairs(peers))
    {
      if OneZone(peers) && zones == Zones(peers) && (p.gen == gen ==> p.target in peers) {
        LookUpIsExact(peers, p.target);
        assert p.target in peers ==> (p.target.node, p.target.zone) in Pairs(peers);
      }
      hide Zones, Pairs, OneZone;
      ok := gen == p.gen;
      if !ok {
        ok := p.target.node in zones && zones[p.target.node] == p.target.zone;
      }
    }
  }

  /** mergePeers. */
  method MergePeers(next: seq<Target>, current: seq<Target>) returns (out: seq<Target>)
    ensures out == Merged(next, current)
  {
    var named: set<string> := {};
    for i := 0 to |next|
      invariant named == Names(next[..i])
    {
      assert next[..i + 1] == next[..i] + [next[i]];
      NamesAt(next[..i], next[i]);
      named := named + {next[i].node};
    }
    assert next[..|next|] == next;
    out := next;
    for i := 0 to |current|
      invariant out == next + Unnamed(named, current[..i])
    {
      assert current[..i + 1][..i] == current[..i];
      if current[i].node !in named {
        out := out + [current[i]];
      }
    }
    assert current[..|current|] == current;
  }

  class AgentPeers {
    const scheduler: Scheduler
    var departed: map<string, Departed>
    var series: set<Pair>
    var gauges: set<Pair>
    var rejoining: bool
    var rejoinGen: nat
    var controllerPeers: Option<seq<Target>>
    var now: int
    ghost var probes: set<Probe>
    ghost var lastSweep: int

    constructor (self: Target, now: int)
      ensures fresh(scheduler) && View() == Start(self, now)
    {
      scheduler := new Scheduler(self);
      departed, series, gauges, rejoining, rejoinGen, controllerPeers := map[], {}, {}, false, 0, None;
      this.now, probes, lastSweep := now, {}, now;
    }

    ghost function View(): State
      reads this, scheduler
    {
      State(scheduler.self, scheduler.peers, scheduler.gen, scheduler.zones, departed, series, gauges,
            rejoining, rejoinGen, controllerPeers, probes, lastSweep, now)
    }

    /** The first loop of forgetDepartedPeers: peers that are back are no longer departed. */
    method WelcomeBack(next: seq<Target>) returns (keep: map<string, string>)
      modifies this`departed, this`series, this`gauges
      ensures keep == Zones(next)
      ensures departed == old(departed) - Names(next)
      ensures series == old(series) - BackElsewhere(old(departed), next)
      ensures gauges == old(gauges) - BackElsewhere(old(departed), next)
    {
      keep := map[];
      hide Names, Zones, BackElsewhere;
      NoneYet(departed, gauges, next[..0], next, now);
      for i := 0 to |next|
        invariant keep == Zones(next[..i])
        invariant departed == old(departed) - Names(next[..i])
        invariant series == old(series) - BackElsewhere(old(departed), next[..i])
        invariant gauges == old(gauges) - BackElsewhere(old(departed), next[..i])
      {
        var p := next[i];
        assert next[..i + 1] == next[..i] + [p];
        NamesAt(next[..i], p);
        BackElsewhereAt(old(departed), next[..i], p);
        keep := keep[p.node := p.zone];
        if p.node in departed && departed[p.node].zone != p.zone {
          series := series - {(p.node, departed[p.node].zone)};
          gauges := gauges - {(p.node, departed[p.node].zone)};
        }
        departed := departed - {p.node};
      }
      assert next[..|next|] == next;
    }

    /** Its second loop: peers that leave lose their gauges, peers that move their old zone. */
    method SeeOff(keep: map<string, string>, ghost next: seq<Target>)
      requires keep == Zones(next)
      modifies this`departed, this`series, this`gauges
      ensures departed == old(departed) + Leaving(old(departed), scheduler.peers, next, now)
      ensures series == old(series) - Moved(scheduler.peers, next)
      ensures gauges == DropNames(old(gauges) - Moved(scheduler.peers, next), Gone(scheduler.peers, next))
    {
      ZonesHas(next);
      hide Names, Zones, Moved, Gone, Leaving, DropNames;
      var current := scheduler.peers;
      NoneYet(departed, gauges, current[..0], next, now);
      for i := 0 to |current|
        invariant departed == old(departed) + Leaving(old(departed), current[..i], next, now)
        invariant series == old(series) - Moved(current[..i], next)
        invariant gauges == DropNames(old(gauges) - Moved(current[..i], next), Gone(current[..i], next))
      {
        var p := current[i];
        assert current[..i + 1] == current[..i] + [p];
        MovedAt(current[..i], p, next);
        GaugesAt(old(gauges), current[..i], p, next);
        LeavingAt(old(departed), current[..i], p, next, now);
        if p.node !in keep {
          gauges := DropNames(gauges, {p.node});
          if p.node !in departed {
            departed := departed[p.node := Departed(now, p.zone)];
          }
        } else if keep[p.node] != p.zone {
          series, gauges := series - {(p.node, p.zone)}, gauges - {(p.node, p.zone)};
        }
      }
      assert current[..|current|] == current;
    }

    method ForgetDepartedPeers(next: seq<Target>)
      modifies this`departed, this`series, this`gauges
      ensures View() == Forget(old(View()), next)
    {
      var keep := WelcomeBack(next);
      SeeOff(keep, next);
      ghost var peers := scheduler.peers;
      assert Leaving(old(departed) - Names(next), peers, next, now) == Leaving(old(departed), peers, next, now);
    }

    method SweepDepartedPeers()
      modifies this`departed, this`series, this`lastSweep
      ensures View() == Sweep(old(View()))
    {
      var left := departed.Keys;
      ghost var seen: set<string> := {};
      while left != {}
        invariant left !! seen && left + seen == old(departed).Keys
        invariant departed == old(departed) - (seen * Expired(old(View())))
        invariant series == DropNames(old(series), seen * Expired(old(View())))
        decreases left
      {
        var n :| n in left;
        left, seen := left - {n}, seen + {n};
        if now - departed[n].at >= GRACE {
          series := DropNames(series, {n});
          departed := departed - {n};
        }
      }
      assert seen * Expired(old(View())) == Expired(old(View()));
      lastSweep := now;
    }

    method ApplyPeers(next: seq<Target>)
      modifies this`departed, this`series, this`gauges, this`lastSweep, scheduler
      ensures View() == Applied(old(View()), next)
    {
      hide Forget, Sweep, Pairs, WithoutSelf, Zones;
      ForgetDepartedPeers(next);
      scheduler.ReplacePeers(next);
      SweepDepartedPeers();
      series := series + Pairs(scheduler.peers);
    }

    method ApplyControllerPeers(next: seq<Target>)
      modifies this`departed, this`series, this`gauges, this`lastSweep, this`controllerPeers, scheduler
      ensures View() == Sync(Sweep(TakeList(old(View()), next)))
    {
      controllerPeers := Some(next);
      var list := next;
      if rejoining {
        list := MergePeers(next, scheduler.peers);
      }
      ApplyPeers(list);
    }

    method BeginRejoin() returns (gen: nat)
      modifies this`rejoining, this`rejoinGen
      ensures View() == RejoinBegun(old(View())) && gen == rejoinGen
    {
      rejoinGen := rejoinGen + 1;
      rejoining := true;
      gen := rejoinGen;
    }

    /** The timer of rejoin generation gen. */
    method EndRejoin(gen: nat)
      modifies this`departed, this`series, this`gauges, this`lastSweep, this`rejoining, scheduler
      ensures var a, b := old(View()), RejoinEnded(old(View()), gen);
        View() == if b.gen == a.gen then b else Sync(Sweep(b))
    {
      if gen != rejoinGen || !rejoining {
        return;
      }
      rejoining := false;
      if controllerPeers.Some? {
        ApplyPeers(controllerPeers.value);
      }
    }

    method DeliverPeer(p: Probe) returns (delivered: bool)
      modifies this`series, this`gauges
      ensures View() == Deliver(old(View()), p) && delivered == Assigned(old(View()), p)
    {
      delivered := scheduler.StillAssigned(p);
      if delivered {
        series, gauges := series + {(p.target.node, p.target.zone)}, gauges + {(p.target.node, p.target.zone)};
      }
    }
  }
}
