/** The external gateway's guard over connections that have not authenticated: an ordered list of
    pending slots, a count per source, fair-share eviction at the cap, and slots that are given back
    exactly once. A slot is named by a number; slots plays the part of the heap the list points into. */
module GatewayGuard {
  import opened Options

  /** Why a slot was given back. */
  datatype Why = Authenticated | Closed | Expired | Evicted

  datatype Slot = Slot(src: string, handshook: bool, listed: bool)

  /** The guard, plus what the outside world saw of it: returned, why each slot was given back, and
      closes, the raw connections the guard closed, in order. */
  datatype Guard = Guard(
    maxPending: int, order: seq<nat>, perSource: map<string, nat>, slots: map<nat, Slot>,
    returned: map<nat, Why>, closes: seq<nat>)

  predicate ByGuard(why: Why) {
    why == Expired || why == Evicted
  }

  // ---- the invariant ----

  ghost predicate Known(s: Guard) {
    forall i :: 0 <= i < |s.order| ==> s.order[i] in s.slots
  }

  /** The sources of the listed slots, oldest first. */
  function Sources(order: seq<nat>, slots: map<nat, Slot>): (r: seq<string>)
    requires forall i :: 0 <= i < |order| ==> order[i] in slots
    ensures |r| == |order| && forall i :: 0 <= i < |order| ==> r[i] == slots[order[i]].src
  {
    seq(|order|, i requires 0 <= i < |order| => slots[order[i]].src)
  }

  ghost predicate Distinct(ids: seq<nat>) {
    forall i, j :: 0 <= i < j < |ids| ==> ids[i] != ids[j]
  }

  /** b stands behind a. */
  ghost predicate Follows(order: seq<nat>, a: nat, b: nat) {
    exists i, j :: 0 <= i < j < |order| && order[i] == a && order[j] == b
  }

  /** perSource counts the listed slots of each source and holds no zero entry. */
  ghost predicate Counted(perSource: map<string, nat>, sources: seq<string>) {
    forall x :: multiset(sources)[x] == if x in perSource then perSource[x] else 0
  }

  ghost predicate NoZero(perSource: map<string, nat>) {
    forall x :: x in perSource ==> perSource[x] > 0
  }

  ghost predicate ListInv(s: Guard) {
    && Known(s) && Distinct(s.order)
    && (forall id :: id in s.slots ==> (s.slots[id].listed <==> id in s.order))
    && |s.order| <= Cap(s.maxPending)
  }

  ghost predicate CountInv(s: Guard) {
    Known(s) && Counted(s.perSource, Sources(s.order, s.slots)) && NoZero(s.perSource)
  }

  /** Every slot is either listed or given back, and the guard closed exactly the connections whose
      slot it expired or evicted, each once. */
  ghost predicate HistoryInv(s: Guard) {
    && (forall id :: id in s.returned <==> id in s.slots && id !in s.order)
    && Distinct(s.closes)
    && (forall id :: id in s.closes <==> id in s.returned && ByGuard(s.returned[id]))
  }

  ghost predicate Inv(s: Guard) {
    ListInv(s) && CountInv(s) && HistoryInv(s)
  }

  function Cap(maxPending: int): int {
    if maxPending < 1 then 1 else maxPending
  }

  // ---- giving a slot back ----

  /** Where a slot stands in the list. */
  function Position(order: seq<nat>, id: nat): (k: nat)
    requires id in order
    ensures k < |order| && order[k] == id
  {
    if order[0] == id then 0 else 1 + Position(order[1..], id)
  }

  function Without(order: seq<nat>, id: nat): seq<nat> {
    if id !in order then order else var k := Position(order, id); order[..k] + order[k + 1..]
  }

  function Less(perSource: map<string, nat>, src: string): map<string, nat> {
    if src !in perSource then perSource
    else if perSource[src] <= 1 then perSource - {src}
    else perSource[src := perSource[src] - 1]
  }

  /** removeLocked with what its caller then does to the raw connection. */
  function GiveBack(s: Guard, id: nat, why: Why): Guard
    requires id in s.slots
  {
    if !s.slots[id].listed then s
    else s.(order := Without(s.order, id),
            perSource := Less(s.perSource, s.slots[id].src),
            slots := s.slots[id := s.slots[id].(listed := false)],
            returned := s.returned[id := why],
            closes := if ByGuard(why) then s.closes + [id] else s.closes)
  }

  lemma WithoutAt(order: seq<nat>, id: nat)
    requires id in order
    ensures var k, w := Position(order, id), Without(order, id);
      |w| == |order| - 1 && forall i :: 0 <= i < |w| ==> w[i] == order[if i < k then i else i + 1]
  {
  }

  lemma WithoutIsDistinct(order: seq<nat>, id: nat)
    requires Distinct(order) && id in order
    ensures Distinct(Without(order, id)) && id !in Without(order, id)
  {
    WithoutAt(order, id);
    hide Without;
  }

  lemma WithoutDrops(order: seq<nat>, id: nat)
    requires Distinct(order) && id in order
    ensures |Without(order, id)| == |order| - 1 && Distinct(Without(order, id))
    ensures forall x :: x in Without(order, id) <==> x in order && x != id
  {
    var k, w := Position(order, id), Without(order, id);
    WithoutAt(order, id);
    WithoutIsDistinct(order, id);
    hide Without, Distinct;
    forall x | x in order && x != id ensures x in w {
      var i :| 0 <= i < |order| && order[i] == x;
      assert w[if i < k then i else i - 1] == x;
    }
    forall x | x in w ensures x in order {
      var i :| 0 <= i < |w| && w[i] == x;
    }
  }

  lemma WithoutSources(order: seq<nat>, slots: map<nat, Slot>, id: nat)
    requires id in order && forall i :: 0 <= i < |order| ==> order[i] in slots
    ensures forall i :: 0 <= i < |Without(order, id)| ==> Without(order, id)[i] in slots
    ensures multiset(Sources(order, slots)) == multiset(Sources(Without(order, id), slots)) + multiset{slots[id].src}
  {
    hide Without;
    WithoutAt(order, id);
    var k := Position(order, id);
    var all, rest := Sources(order, slots), Sources(Without(order, id), slots);
    assert rest == all[..k] + all[k + 1..] by {
      hide Position;
      assert forall i :: 0 <= i < |rest| ==> rest[i] == all[if i < k then i else i + 1];
    }
    hide Position, Sources;
    assert all == all[..k] + [all[k]] + all[k + 1..];
  }

  lemma LessCounts(perSource: map<string, nat>, src: string, sources: seq<string>, rest: seq<string>)
    requires Counted(perSource, sources) && NoZero(perSource)
    requires multiset(sources) == multiset(rest) + multiset{src}
    ensures Counted(Less(perSource, src), rest) && NoZero(Less(perSource, src))
  {
    assert multiset(sources)[src] == multiset(rest)[src] + 1;
  }

  lemma GiveBackKeepsInv(s: Guard, id: nat, why: Why)
    requires Inv(s) && id in s.slots
    ensures Inv(GiveBack(s, id, why))
  {
    hide ListInv, CountInv, HistoryInv;
    if s.slots[id].listed {
      GiveBackKeepsList(s, id, why);
      GiveBackKeepsCounts(s, id, why);
      GiveBackKeepsHistory(s, id, why);
    }
  }

  lemma GiveBackKeepsList(s: Guard, id: nat, why: Why)
    requires ListInv(s) && id in s.slots && s.slots[id].listed
    ensures ListInv(GiveBack(s, id, why))
  {
    WithoutDrops(s.order, id);
    hide Distinct, Without;
    assert forall x :: x in s.order ==> x in s.slots;
  }

  lemma GiveBackKeepsHistory(s: Guard, id: nat, why: Why)
    requires ListInv(s) && HistoryInv(s) && id in s.slots && s.slots[id].listed
    ensures HistoryInv(GiveBack(s, id, why))
  {
    hide Without;
    WithoutDrops(s.order, id);
    assert id !in s.returned && id !in s.closes;
  }

  lemma GiveBackKeepsCounts(s: Guard, id: nat, why: Why)
    requires CountInv(s) && ListInv(s) && id in s.slots && s.slots[id].listed
    ensures CountInv(GiveBack(s, id, why))
  {
    var s' := GiveBack(s, id, why);
    WithoutSources(s.order, s.slots, id);
    assert Sources(s'.order, s'.slots) == Sources(s'.order, s.slots);
    LessCounts(s.perSource, s.slots[id].src, Sources(s.order, s.slots), Sources(s'.order, s.slots));
  }

  // ---- choosing the victim ----

  /** The slots a source holds, the newcomer counted. */
  function Share(s: Guard, incoming: string, src: string): nat {
    (if src in s.perSource then s.perSource[src] else 0) + if src == incoming then 1 else 0
  }

  /** The source that gives way: none holds more with the newcomer counted; a tie goes to the incoming
      source if it holds a slot, else to the source with the oldest slot. */
  ghost predicate GivesWay(s: Guard, incoming: string, src: string)
    requires Known(s)
  {
    && src in s.perSource
    && (forall x :: Share(s, incoming, x) <= Share(s, incoming, src))
    && (src != incoming ==>
          && (incoming in s.perSource ==> Share(s, incoming, incoming) < Share(s, incoming, src))
          && exists j :: 0 <= j < |s.order| && s.slots[s.order[j]].src == src
               && forall i :: 0 <= i < j ==> Share(s, incoming, s.slots[s.order[i]].src) < Share(s, incoming, src))
  }

  ghost predicate NoneBefore(s: Guard, src: string, k: nat)
    requires Known(s)
  {
    forall i :: 0 <= i < k && i < |s.order| ==> s.slots[s.order[i]].src != src
  }

  /** Within its source, the oldest slot still in its TLS handshake; past TLS only if there is none. */
  ghost predicate OldestOf(s: Guard, src: string, id: nat)
    requires Known(s)
  {
    exists k :: 0 <= k < |s.order| && s.order[k] == id && s.slots[id].src == src
      && (!s.slots[id].handshook ==>
            forall i :: 0 <= i < k && s.slots[s.order[i]].src == src ==> s.slots[s.order[i]].handshook)
      && (s.slots[id].handshook ==>
            && NoneBefore(s, src, k)
            && (forall i :: 0 <= i < |s.order| && s.slots[s.order[i]].src == src ==> s.slots[s.order[i]].handshook))
  }

  ghost predicate IsVictim(s: Guard, incoming: string, victim: Option<nat>)
    requires Known(s)
  {
    if |s.order| < s.maxPending || s.order == [] then victim == None
    else victim.Some? && exists src :: GivesWay(s, incoming, src) && OldestOf(s, src, victim.value)
  }

  lemma {:induction false} Pigeonhole(m: multiset<string>, sources: set<string>, most: nat)
    requires forall x :: x in m ==> x in sources
    requires forall x :: m[x] <= most
    ensures |m| <= |sources| * most
  {
    if sources == {} {
      assert m == multiset{};
    } else {
      var x :| x in sources;
      var m', rest := m[x := 0], sources - {x};
      Pigeonhole(m', rest, most);
      assert |m| == |m'| + m[x];
      assert (|rest| + 1) * most == |rest| * most + most;
    }
  }

  /** Fair share: the victim's source, with the newcomer counted, holds at least as many slots as any
      other, so at least its part of everything pending over the distinct sources. */
  lemma VictimHoldsTheMost(s: Guard, incoming: string, victim: nat)
    requires Inv(s) && IsVictim(s, incoming, Some(victim))
    ensures victim in s.order
    ensures forall x :: Share(s, incoming, x) <= Share(s, incoming, s.slots[victim].src)
    ensures s.maxPending + 1 <= |s.perSource.Keys + {incoming}| * Share(s, incoming, s.slots[victim].src)
    ensures s.slots[victim].handshook ==>
      forall id :: id in s.order && s.slots[id].src == s.slots[victim].src ==> s.slots[id].handshook
  {
    hide OldestOf, ListInv, HistoryInv;
    var src :| GivesWay(s, incoming, src) && OldestOf(s, src, victim);
    OldestIsListed(s, src, victim);
    SharesAddUp(s, incoming, Share(s, incoming, src));
    hide CountInv;
  }

  /** The whole rule. A tie goes to the incoming source if it holds a slot, else to the source whose oldest
      slot comes first; within the source it is the oldest slot in its handshake, else the oldest. */
  lemma VictimRule(s: Guard, incoming: string, victim: nat)
    requires Inv(s) && IsVictim(s, incoming, Some(victim))
    ensures |s.order| >= s.maxPending && victim in s.order
    ensures var src := s.slots[victim].src;
      && (incoming in s.perSource && Share(s, incoming, incoming) == Share(s, incoming, src) ==> src == incoming)
      && (src != incoming ==> forall i :: 0 <= i < |s.order| && NoneBefore(s, src, i + 1) ==>
           Share(s, incoming, s.slots[s.order[i]].src) < Share(s, incoming, src))
    ensures forall x :: x in s.order && x != victim && s.slots[x].src == s.slots[victim].src ==>
      if s.slots[x].handshook == s.slots[victim].handshook then Follows(s.order, victim, x) else s.slots[x].handshook
  {
    assert Known(s);
    hide ListInv, CountInv, HistoryInv;
    var src :| GivesWay(s, incoming, src) && OldestOf(s, src, victim);
    OldestIsListed(s, src, victim);
    forall x | x in s.order && x != victim && s.slots[x].src == src
      ensures if s.slots[x].handshook == s.slots[victim].handshook then Follows(s.order, victim, x)
              else s.slots[x].handshook
    {
      OldestOfItsKind(s, src, victim, x);
    }
    FirstOfItsShare(s, incoming, src);
    hide GivesWay, OldestOf;
  }

  lemma FirstOfItsShare(s: Guard, incoming: string, src: string)
    requires Known(s) && GivesWay(s, incoming, src)
    ensures incoming in s.perSource && Share(s, incoming, incoming) == Share(s, incoming, src) ==> src == incoming
    ensures src != incoming ==> forall i :: 0 <= i < |s.order| && NoneBefore(s, src, i + 1) ==>
      Share(s, incoming, s.slots[s.order[i]].src) < Share(s, incoming, src)
  {
    hide Share;
  }

  lemma OldestOfItsKind(s: Guard, src: string, victim: nat, x: nat)
    requires Known(s) && OldestOf(s, src, victim) && x in s.order && x != victim && s.slots[x].src == src
    ensures if s.slots[x].handshook == s.slots[victim].handshook then Follows(s.order, victim, x)
            else s.slots[x].handshook
  {
    var i :| 0 <= i < |s.order| && s.order[i] == x;
    var k :| 0 <= k < |s.order| && s.order[k] == victim && s.slots[victim].src == src
      && (!s.slots[victim].handshook ==>
            forall i :: 0 <= i < k && s.slots[s.order[i]].src == src ==> s.slots[s.order[i]].handshook)
      && (s.slots[victim].handshook ==>
            && NoneBefore(s, src, k)
            && (forall i :: 0 <= i < |s.order| && s.slots[s.order[i]].src == src ==> s.slots[s.order[i]].handshook));
    assert k < i ==> Follows(s.order, victim, x);
  }

  /** With the newcomer counted, the largest share is at least the average over the sources. */
  lemma SharesAddUp(s: Guard, incoming: string, most: nat)
    requires Known(s) && CountInv(s) && |s.order| >= s.maxPending && forall x :: Share(s, incoming, x) <= most
    ensures s.maxPending + 1 <= |s.perSource.Keys + {incoming}| * most
  {
    var all := Sources(s.order, s.slots) + [incoming];
    assert forall x :: multiset(all)[x] == Share(s, incoming, x);
    Pigeonhole(multiset(all), s.perSource.Keys + {incoming}, most);
  }

  lemma OldestIsListed(s: Guard, src: string, id: nat)
    requires Known(s) && OldestOf(s, src, id)
    ensures id in s.order && s.slots[id].src == src
    ensures s.slots[id].handshook ==> forall x :: x in s.order && s.slots[x].src == src ==> s.slots[x].handshook
  {
  }

  /** The rule names one victim: every choice it leaves open would be a different one. */
  lemma VictimIsUnique(s: Guard, incoming: string, a: Option<nat>, b: Option<nat>)
    requires Known(s) && IsVictim(s, incoming, a) && IsVictim(s, incoming, b)
    ensures a == b
  {
    if a.Some? {
      var x :| GivesWay(s, incoming, x) && OldestOf(s, x, a.value);
      var y :| GivesWay(s, incoming, y) && OldestOf(s, y, b.value);
      GivesWayIsUnique(s, incoming, x, y);
      OldestIsUnique(s, x, a.value, b.value);
    }
  }

  lemma GivesWayIsUnique(s: Guard, incoming: string, x: string, y: string)
    requires Known(s) && GivesWay(s, incoming, x) && GivesWay(s, incoming, y)
    ensures x == y
  {
    assert Share(s, incoming, x) == Share(s, incoming, y);
  }

  lemma OldestIsUnique(s: Guard, src: string, a: nat, b: nat)
    requires Known(s) && OldestOf(s, src, a) && OldestOf(s, src, b)
    ensures a == b
  {
  }

  // ---- admission ----

  function Admitted(s: Guard, src: string, id: nat): Guard {
    s.(order := s.order + [id],
       perSource := s.perSource[src := (if src in s.perSource then s.perSource[src] else 0) + 1],
       slots := s.slots[id := Slot(src, false, true)])
  }

  /** admit: the victim, if any, is given back and its connection closed, then the newcomer joins. */
  function WithNewcomer(s: Guard, src: string, id: nat, victim: Option<nat>): Guard
    requires victim.Some? ==> victim.value in s.slots
  {
    Admitted(if victim.Some? then GiveBack(s, victim.value, Evicted) else s, src, id)
  }

  lemma AdmittedKeepsInv(s: Guard, src: string, id: nat)
    requires Inv(s) && id !in s.slots && |s.order| < Cap(s.maxPending)
    ensures Inv(Admitted(s, src, id))
  {
    hide ListInv, CountInv, HistoryInv, Admitted;
    AdmittedKeepsCounts(s, src, id);
    AdmittedKeepsLists(s, src, id);
  }

  lemma AdmittedKeepsCounts(s: Guard, src: string, id: nat)
    requires CountInv(s) && id !in s.slots
    ensures CountInv(Admitted(s, src, id))
  {
    var s' := Admitted(s, src, id);
    assert Sources(s'.order, s'.slots) == Sources(s.order, s.slots) + [src];
  }

  lemma AdmittedKeepsLists(s: Guard, src: string, id: nat)
    requires ListInv(s) && HistoryInv(s) && id !in s.slots && |s.order| < Cap(s.maxPending)
    ensures ListInv(Admitted(s, src, id)) && HistoryInv(Admitted(s, src, id))
  {
    assert forall x :: x in s.order ==> x in s.slots;
  }

  /** Room is made before the newcomer joins, so the cap holds; with a cap below one there is no one
      to push out of an empty list and one slot is held all the same. */
  lemma AdmitKeepsInv(s: Guard, src: string, id: nat, victim: Option<nat>)
    requires Inv(s) && id !in s.slots && IsVictim(s, src, victim)
    ensures victim.Some? ==> victim.value in s.slots
    ensures Inv(WithNewcomer(s, src, id, victim))
    ensures s.maxPending >= 1 <==> |WithNewcomer(s, src, id, victim).order| <= s.maxPending
  {
    if victim.Some? {
      VictimHoldsTheMost(s, src, victim.value);
      GiveBackKeepsInv(s, victim.value, Evicted);
      WithoutDrops(s.order, victim.value);
      AdmittedKeepsInv(GiveBack(s, victim.value, Evicted), src, id);
    } else {
      AdmittedKeepsInv(s, src, id);
    }
  }

  // ---- runs ----

  datatype Event = AdmitConn(src: string, id: nat) | HandshakeDone(id: nat) | Return(id: nat, why: Why)

  function Handshook(s: Guard, id: nat): Guard
    requires id in s.slots
  {
    s.(slots := s.slots[id := s.slots[id].(handshook := true)])
  }

  /** One locked section. A timer that fired just before it was stopped still runs, so any slot may be
      returned for any reason at any time, given back or not; only admit evicts. */
  ghost predicate Next(s: Guard, e: Event, s': Guard)
  {
    match e
    case AdmitConn(src, id) =>
      && id !in s.slots && Known(s)
      && exists v: Option<nat> :: IsVictim(s, src, v) && (v.Some? ==>
        v.value in s.slots) && s' == WithNewcomer(s, src, id, v)
    case HandshakeDone(id) => id in s.slots && s' == Handshook(s, id)
    case Return(id, why) => id in s.slots && why != Evicted && s' == GiveBack(s, id, why)
  }

  ghost predicate IsRun(states: seq<Guard>, events: seq<Event>) {
    && |states| == |events| + 1
    && states[0] == Guard(states[0].maxPending, [], map[], map[], map[], [])
    && forall i :: 0 <= i < |events| ==> Next(states[i], events[i], states[i + 1])
  }

  lemma HandshookKeepsInv(s: Guard, id: nat)
    requires Inv(s) && id in s.slots
    ensures Inv(Handshook(s, id))
  {
    var s' := Handshook(s, id);
    assert Sources(s'.order, s'.slots) == Sources(s.order, s.slots);
  }

  /** What a slot was given back for does not change. */
  ghost predicate KeepsReturns(s: Guard, s': Guard) {
    forall id :: id in s.returned ==> id in s'.returned && s'.returned[id] == s.returned[id]
  }

  lemma GiveBackKeepsReturns(s: Guard, id: nat, why: Why)
    requires ListInv(s) && HistoryInv(s) && id in s.slots
    ensures KeepsReturns(s, GiveBack(s, id, why))
  {
  }

  lemma KeepsReturnsTransitive(a: Guard, b: Guard, c: Guard)
    ensures KeepsReturns(a, a)
    ensures KeepsReturns(a, b) && KeepsReturns(b, c) ==> KeepsReturns(a, c)
  {
  }

  lemma NextKeepsInv(s: Guard, e: Event, s': Guard)
    requires Inv(s) && Next(s, e, s')
    ensures Inv(s') && s'.maxPending == s.maxPending
    ensures KeepsReturns(s, s')
  {
    hide CountInv, IsVictim, ListInv, HistoryInv;
    match e
    case AdmitConn(src, id) =>
      var v: Option<nat> :| IsVictim(s, src, v) && (v.Some? ==>
        v.value in s.slots) && s' == WithNewcomer(s, src, id, v);
      AdmitKeepsInv(s, src, id, v);
      if v.Some? {
        GiveBackKeepsReturns(s, v.value, Evicted);
      }
    case HandshakeDone(id) =>
      HandshookKeepsInv(s, id);
    case Return(id, why) =>
      GiveBackKeepsInv(s, id, why);
      GiveBackKeepsReturns(s, id, why);
  }

  lemma RunSteps(states: seq<Guard>, events: seq<Event>, j: nat)
    requires IsRun(states, events) && j < |events|
    ensures |states| == |events| + 1 && Next(states[j], events[j], states[j + 1])
  {
  }

  lemma RunStarts(states: seq<Guard>, events: seq<Event>)
    requires IsRun(states, events)
    ensures |states| == |events| + 1 && Inv(states[0])
  {
  }

  lemma {:induction false} RunKeepsInv(states: seq<Guard>, events: seq<Event>, i: nat, j: nat)
    requires IsRun(states, events) && i <= j < |states|
    ensures Inv(states[i]) && Inv(states[j]) && states[j].maxPending == states[i].maxPending
    ensures KeepsReturns(states[i], states[j])
    decreases j, i
  {
    hide Inv, Next, KeepsReturns, IsRun;
    RunStarts(states, events);
    if i == j == 0 {
      KeepsReturnsTransitive(states[0], states[0], states[0]);
    } else if i == j {
      RunSteps(states, events, j - 1);
      RunKeepsInv(states, events, j - 1, j - 1);
      NextKeepsInv(states[j - 1], events[j - 1], states[j]);
      KeepsReturnsTransitive(states[j], states[j], states[j]);
    } else {
      RunSteps(states, events, j - 1);
      RunKeepsInv(states, events, i, j - 1);
      NextKeepsInv(states[j - 1], events[j - 1], states[j]);
      KeepsReturnsTransitive(states[i], states[j - 1], states[j]);
    }
  }

  /** Over every run: the counts are exact, every admitted slot is listed or given back, and what it
      was given back for never changes; so a connection that authenticated is never closed later by
      its deadline or by eviction. */
  lemma EveryRunIsSafe(states: seq<Guard>, events: seq<Event>, i: nat, j: nat)
    requires IsRun(states, events) && i <= j < |states|
    ensures Inv(states[i]) && Inv(states[j])
    ensures states[0].maxPending >= 1 ==> |states[j].order| <= states[0].maxPending
    ensures KeepsReturns(states[i], states[j])
    ensures forall id :: id in states[i].returned && states[i].returned[id] == Authenticated ==> id !in states[j].closes
    ensures forall id :: id in states[j].closes <==>
      id in states[j].returned && (states[j].returned[id] == Expired || states[j].returned[id] == Evicted)
  {
    hide IsRun, CountInv;
    RunKeepsInv(states, events, 0, j);
    RunKeepsInv(states, events, i, j);
  }

  // ---- slots, from the events alone ----

  ghost predicate Happened(events: seq<Event>, k: nat, e: Event)
    requires k <= |events|
  {
    exists i :: 0 <= i < k && events[i] == e
  }

  ghost predicate Joined(events: seq<Event>, k: nat, id: nat)
    requires k <= |events|
  {
    exists i :: 0 <= i < k && events[i].AdmitConn? && events[i].id == id
  }

  lemma SlotStep(s: Guard, e: Event, s': Guard, id: nat)
    requires Next(s, e, s')
    ensures id in s'.slots <==> id in s.slots || (e.AdmitConn? && e.id == id)
    ensures e.AdmitConn? && e.id == id ==>
      id !in s.slots && id in s'.slots && s'.slots[id].src == e.src && !s'.slots[id].handshook
    ensures id in s.slots ==> id in s'.slots && s'.slots[id].src == s.slots[id].src
    ensures id in s.slots ==> (s'.slots[id].handshook <==> s.slots[id].handshook || e == HandshakeDone(id))
    ensures e == HandshakeDone(id) ==> id in s.slots
  {
    hide IsVictim, Without;
  }

  /** A slot exists once its connection was admitted, under that source, and is past TLS exactly when the
      handshake was reported. */
  ghost predicate SlotTraced(events: seq<Event>, k: nat, s: Guard, id: nat)
    requires k <= |events|
  {
    && (id in s.slots <==> Joined(events, k, id))
    && (id in s.slots ==> Happened(events, k, AdmitConn(s.slots[id].src, id)))
    && (id in s.slots ==> (s.slots[id].handshook <==> Happened(events, k, HandshakeDone(id))))
    && (id !in s.slots ==> !Happened(events, k, HandshakeDone(id)))
  }

  lemma HappenedNext(events: seq<Event>, k: nat, e: Event)
    requires k < |events|
    ensures Happened(events, k + 1, e) <==> Happened(events, k, e) || events[k] == e
  {
  }

  lemma JoinedNext(events: seq<Event>, k: nat, id: nat)
    requires k < |events|
    ensures Joined(events, k + 1, id) <==> Joined(events, k, id) || (events[k].AdmitConn? && events[k].id == id)
  {
  }

  lemma {:induction false} EverySlotIsTraced(states: seq<Guard>, events: seq<Event>, k: nat, id: nat)
    requires IsRun(states, events) && k < |states|
    ensures SlotTraced(events, k, states[k], id)
    decreases k
  {
    if k > 0 {
      RunSteps(states, events, k - 1);
      EverySlotIsTraced(states, events, k - 1, id);
      hide IsRun, Next, Happened, Joined;
      var s, s' := states[k - 1], states[k];
      SlotStep(s, events[k - 1], s', id);
      JoinedNext(events, k - 1, id);
      HappenedNext(events, k - 1, HandshakeDone(id));
      HappenedNext(events, k - 1, AdmitConn(if id in s'.slots then s'.slots[id].src else "", id));
    }
  }

  /** Two connections were admitted, a before b. */
  ghost predicate InTurn(events: seq<Event>, k: nat, a: nat, b: nat)
    requires k <= |events|
  {
    exists i, j ::
      0 <= i < j < k && events[i].AdmitConn? && events[i].id == a && events[j].AdmitConn? && events[j].id == b
  }

  lemma InTurnNext(events: seq<Event>, k: nat, a: nat, b: nat)
    requires k < |events|
    ensures InTurn(events, k, a, b) ==> InTurn(events, k + 1, a, b)
    ensures Joined(events, k, a) && events[k].AdmitConn? && events[k].id == b ==> InTurn(events, k + 1, a, b)
  {
  }

  lemma RemovedFollows(s: Guard, id: nat, why: Why, a: nat, b: nat)
    requires id in s.slots && Follows(GiveBack(s, id, why).order, a, b)
    ensures Follows(s.order, a, b)
  {
    if s.slots[id].listed && id in s.order {
      WithoutAt(s.order, id);
      var k, w := Position(s.order, id), Without(s.order, id);
      hide Without, Position;
      var p, q :| 0 <= p < q < |w| && w[p] == a && w[q] == b;
      var i, j := if p < k then p else p + 1, if q < k then q else q + 1;
      assert 0 <= i < j < |s.order| && s.order[i] == a && s.order[j] == b;
    }
  }

  lemma RemovedHas(s: Guard, id: nat, why: Why, a: nat)
    requires id in s.slots && a in GiveBack(s, id, why).order
    ensures a in s.order
  {
  }

  lemma AppendedFollows(order: seq<nat>, id: nat, a: nat, b: nat)
    requires Follows(order + [id], a, b)
    ensures Follows(order, a, b) || (a in order && b == id)
  {
    var all := order + [id];
    var i, j :| 0 <= i < j < |all| && all[i] == a && all[j] == b;
    assert all[i] == order[i];
  }

  /** A newcomer comes last and nobody changes places. */
  lemma OrderStep(s: Guard, e: Event, s': Guard, a: nat, b: nat)
    requires Next(s, e, s') && Follows(s'.order, a, b)
    ensures Follows(s.order, a, b) || (e.AdmitConn? && a in s.order && b == e.id)
  {
    hide Follows, Without, IsVictim;
    match e
    case AdmitConn(src, id) =>
      var v: Option<nat> :| IsVictim(s, src, v) && (v.Some? ==>
        v.value in s.slots) && s' == WithNewcomer(s, src, id, v);
      var g := if v.Some? then GiveBack(s, v.value, Evicted) else s;
      assert s'.order == g.order + [id];
      AppendedFollows(g.order, id, a, b);
      if v.Some? {
        if Follows(g.order, a, b) {
          RemovedFollows(s, v.value, Evicted, a, b);
        } else {
          RemovedHas(s, v.value, Evicted, a);
        }
      }
    case HandshakeDone(id) =>
    case Return(id, why) => RemovedFollows(s, id, why, a, b);
  }

  /** In every run the list is in the order of admission, so its front is the oldest. */
  lemma {:induction false} EveryRunListsByAdmission(states: seq<Guard>, events: seq<Event>, k: nat, a: nat, b: nat)
    requires IsRun(states, events) && k < |states| && Follows(states[k].order, a, b)
    ensures InTurn(events, k, a, b)
    decreases k
  {
    hide IsRun, Next, InTurn, Joined, Happened, CountInv, HistoryInv;
    RunStarts(states, events);
    if k == 0 {
      StartIsEmpty(states, events);
    } else {
      var s, s' := states[k - 1], states[k];
      RunSteps(states, events, k - 1);
      OrderStep(s, events[k - 1], s', a, b);
      if Follows(s.order, a, b) {
        EveryRunListsByAdmission(states, events, k - 1, a, b);
      } else {
        RunKeepsInv(states, events, k - 1, k - 1);
        EverySlotIsTraced(states, events, k - 1, a);
      }
      InTurnNext(events, k - 1, a, b);
    }
  }

  lemma StartIsEmpty(states: seq<Guard>, events: seq<Event>)
    requires IsRun(states, events)
    ensures states[0].order == [] && states[0].returned == map[]
  {
  }

  /** The newcomer found the list at its cap, and this slot is its victim. */
  ghost predicate PushedOut(s: Guard, e: Event, id: nat) {
    Known(s) && e.AdmitConn? && |s.order| >= s.maxPending && IsVictim(s, e.src, Some(id))
  }

  lemma ReturnStep(s: Guard, e: Event, s': Guard, id: nat)
    requires Inv(s) && Next(s, e, s')
    ensures id in s'.returned && id !in s.returned ==>
      if s'.returned[id] == Evicted then PushedOut(s, e, id) else e == Return(id, s'.returned[id])
    ensures e.Return? && e.id == id && id in s.order ==>
      id in s'.returned && s'.returned[id] == e.why && id !in s'.order
    ensures s.closes <= s'.closes
  {
    hide CountInv, GivesWay, OldestOf;
    if e.Return? && id in s.order {
      WithoutDrops(s.order, id);
    }
  }

  ghost predicate WasPushedOut(states: seq<Guard>, events: seq<Event>, k: nat, id: nat)
    requires k <= |events| && k <= |states|
  {
    exists i :: 0 <= i < k && PushedOut(states[i], events[i], id)
  }

  /** In every run: a slot was given back for the reason the event that returned it gave, or it was the
      victim of an admission at the cap; connections stay closed in the order the guard closed them. */
  lemma {:induction false} EveryReturnIsExplained(states: seq<Guard>, events: seq<Event>, k: nat, id: nat)
    requires IsRun(states, events) && k < |states|
    ensures id in states[k].returned ==>
      if states[k].returned[id] == Evicted then WasPushedOut(states, events, k, id)
      else Happened(events, k, Return(id, states[k].returned[id]))
    ensures k > 0 ==> states[k - 1].closes <= states[k].closes
    decreases k
  {
    hide IsRun, Next, PushedOut, Inv, Happened;
    RunStarts(states, events);
    if k == 0 {
      StartIsEmpty(states, events);
    } else {
      RunSteps(states, events, k - 1);
      EveryReturnIsExplained(states, events, k - 1, id);
      RunKeepsInv(states, events, k - 1, k);
      ReturnStep(states[k - 1], events[k - 1], states[k], id);
      if id in states[k].returned {
        HappenedNext(events, k - 1, Return(id, states[k].returned[id]));
        if id in states[k - 1].returned {
          ReturnsStay(states[k - 1], states[k], id);
        }
      }
    }
  }

  lemma ReturnsStay(s: Guard, s': Guard, id: nat)
    requires KeepsReturns(s, s') && id in s.returned
    ensures id in s'.returned && s'.returned[id] == s.returned[id]
  {
  }

  // ---- the guard itself ----

  class GatewayConnGuard {
    const maxPending: int
    var order: seq<nat>
    var perSource: map<string, nat>
    var slots: map<nat, Slot>
    ghost var returned: map<nat, Why>
    ghost var closes: seq<nat>

    ghost function State(): Guard
      reads this
    {
      Guard(maxPending, order, perSource, slots, returned, closes)
    }

    constructor (maxPending: int)
      ensures State() == Guard(maxPending, [], map[], map[], map[], []) && Inv(State())
    {
      this.maxPending := maxPending;
      order, perSource, slots, returned, closes := [], map[], map[], map[], [];
    }

    /** The largest share of any source, the newcomer counted. */
    method MostSlots(incoming: string) returns (most: nat)
      ensures forall x :: Share(State(), incoming, x) <= most
      ensures exists x :: Share(State(), incoming, x) == most
    {
      most := (if incoming in perSource then perSource[incoming] else 0) + 1;
      assert Share(State(), incoming, incoming) == most;
      var todo := perSource.Keys;
      while todo != {}
        invariant todo <= perSource.Keys
        invariant Share(State(), incoming, incoming) <= most
        invariant forall x :: x in perSource && x !in todo ==> perSource[x] <= most
        invariant exists x :: Share(State(), incoming, x) == most
        decreases todo
      {
        var src :| src in todo;
        todo := todo - {src};
        if perSource[src] > most {
          most := perSource[src];
          assert Share(State(), incoming, src) == most;
        }
      }
    }

    /** The source the newcomer pushes a slot out of. */
    method SourceToEvict(incoming: string) returns (from: string)
      requires Known(State()) && CountInv(State()) && order != []
      ensures GivesWay(State(), incoming, from)
    {
      hide ListInv, CountInv;
      var most := MostSlots(incoming);
      from := incoming;
      if incoming !in perSource || perSource[incoming] + 1 < most {
        SomeSlotHasMost(State(), incoming, most);
        for e := 0 to |order|
          invariant from == incoming
          invariant forall i :: 0 <= i < e ==> Share(State(), incoming, slots[order[i]].src) < most
        {
          SourceIsCounted(State(), e);
          if perSource[slots[order[e]].src] == most {
            from := slots[order[e]].src;
            assert slots[order[e]].src == from;
            break;
          }
        }
      }
    }

    /** The slot of a source that goes first. */
    method OldestSlot(from: string) returns (victim: nat)
      requires ListInv(State()) && from in Sources(order, slots)
      ensures OldestOf(State(), from, victim)
    {
      var oldestPastTls: Option<nat> := None;
      for e := 0 to |order|
        invariant forall i :: 0 <= i < e && slots[order[i]].src == from ==> slots[order[i]].handshook
        invariant oldestPastTls == None ==> forall i :: 0 <= i < e ==> slots[order[i]].src != from
        invariant oldestPastTls.Some? ==>
          exists k ::
            0 <= k < e && order[k] == oldestPastTls.value && slots[order[k]].src == from && NoneBefore(State(), from, k)
      {
        var v := slots[order[e]];
        if v.src == from {
          if !v.handshook {
            return order[e];
          }
          if oldestPastTls == None {
            oldestPastTls := Some(order[e]);
          }
        }
      }
      assert oldestPastTls.Some? by {
        var k :| 0 <= k < |order| && Sources(order, slots)[k] == from;
        assert slots[order[k]].src == from;
      }
      victim := oldestPastTls.value;
    }

    /** victimLocked: none below the cap, otherwise the slot the rule names. */
    method VictimLocked(incoming: string) returns (victim: Option<nat>)
      requires Inv(State())
      ensures IsVictim(State(), incoming, victim)
    {
      if |order| < maxPending || order == [] {
        return None;
      }
      var from := SourceToEvict(incoming);
      CountedMeansListed(State(), from);
      var id := OldestSlot(from);
      victim := Some(id);
    }

    /** removeLocked, with the reason its caller gives the slot back for. */
    method RemoveLocked(id: nat, ghost why: Why) returns (ok: bool)
      requires Inv(State()) && id in slots
      modifies this
      ensures State() == GiveBack(old(State()), id, why) && Inv(State())
      ensures ok <==> id in old(order)
    {
      hide CountInv, HistoryInv;
      GiveBackKeepsInv(State(), id, why);
      if !slots[id].listed {
        return false;
      }
      var src := slots[id].src;
      order := Without(order, id);
      slots := slots[id := slots[id].(listed := false)];
      var held: int := if src in perSource then perSource[src] else 0;
      var left := held - 1;
      if left <= 0 {
        perSource := perSource - {src};
      } else {
        perSource := perSource[src := left];
      }
      returned := returned[id := why];
      closes := if ByGuard(why) then closes + [id] else closes;
      ok := true;
    }

    /** admit: it never refuses; at the cap it closes the victim's connection to make room. */
    method Admit(src: string, id: nat) returns (victim: Option<nat>)
      requires Inv(State()) && id !in slots
      modifies this
      ensures IsVictim(old(State()), src, victim)
      ensures victim.Some? ==> victim.value in old(slots)
      ensures State() == WithNewcomer(old(State()), src, id, victim) && Inv(State())
      ensures id in order
    {
      hide ListInv, CountInv, HistoryInv, IsVictim, GiveBack;
      victim := VictimLocked(src);
      AdmitKeepsInv(State(), src, id, victim);
      if victim.Some? {
        var _ := RemoveLocked(victim.value, Evicted);
      }
      order := order + [id];
      perSource := perSource[src := (if src in perSource then perSource[src] else 0) + 1];
      slots := slots[id := Slot(src, false, true)];
    }

    /** release, for a connection that authenticated, closed or reached its deadline: it gives the slot
        back if nothing did before, and says whether it was the one. */
    method Release(id: nat, ghost why: Why) returns (ok: bool)
      requires Inv(State()) && id in slots && why != Evicted
      modifies this
      ensures State() == GiveBack(old(State()), id, why) && Inv(State())
      ensures ok <==> id in old(order)
    {
      ok := RemoveLocked(id, why);
    }

    method HandshakeIsDone(id: nat)
      requires Inv(State()) && id in slots
      modifies this
      ensures State() == Handshook(old(State()), id) && Inv(State())
      ensures id in slots && slots[id].handshook && slots[id].src == old(slots)[id].src
      ensures forall x :: x in old(slots) && x != id ==> x in slots && slots[x] == old(slots)[x]
    {
      HandshookKeepsInv(State(), id);
      slots := slots[id := slots[id].(handshook := true)];
    }
  }

  lemma SourceIsCounted(s: Guard, e: nat)
    requires CountInv(s) && e < |s.order|
    ensures s.slots[s.order[e]].src in s.perSource
  {
    assert s.slots[s.order[e]].src in multiset(Sources(s.order, s.slots));
  }

  lemma CountedMeansListed(s: Guard, src: string)
    requires CountInv(s) && src in s.perSource
    ensures src in Sources(s.order, s.slots)
  {
    assert src in multiset(Sources(s.order, s.slots));
  }

  /** When the incoming source holds nothing or not the most, some listed source holds the most. */
  lemma SomeSlotHasMost(s: Guard, incoming: string, most: nat)
    requires CountInv(s) && s.order != []
    requires forall x :: Share(s, incoming, x) <= most
    requires exists x :: Share(s, incoming, x) == most
    requires incoming !in s.perSource || s.perSource[incoming] + 1 < most
    ensures exists j ::
      0 <= j < |s.order| && var src := s.slots[s.order[j]].src; src in s.perSource && s.perSource[src] == most
  {
    assert Share(s, incoming, incoming) >= 1;
    var x :| Share(s, incoming, x) == most;
    if x == incoming {
      SourceIsCounted(s, 0);
      x := s.slots[s.order[0]].src;
      assert Share(s, incoming, x) <= most;
    }
    CountedMeansListed(s, x);
    var j :| 0 <= j < |s.order| && Sources(s.order, s.slots)[j] == x;
    assert s.slots[s.order[j]].src == x;
  }
}
