/** Traces started by failed probes: a slot of a bounded semaphore first, then the pair's cooldown; the
    cooldown map forgets expired entries. Times are in nanoseconds on a monotone clock. */
module ReactiveTraces {

  const MAX_TRACES: nat := 4

  datatype CheckType = TCP | UDP | ICMP | DNS | HTTP | MTR | PMTU | External

  /** Failures of these never start a trace. */
  predicate Traced(t: CheckType) {
    t.TCP? || t.UDP? || t.ICMP?
  }

  /** A goroutine that holds a slot: before the cooldown check, or tracing. */
  datatype Holder = Asking(key: string) | Tracing(key: string)

  datatype Start = Start(key: string, at: int)

  /** full is the cooldown map as it would be if nothing were ever pruned. */
  datatype State = State(
    cooldown: int, lastRun: map<string, int>, full: map<string, int>, holders: map<nat, Holder>,
    starts: seq<Start>, clock: int)

  function Key(source: string, destination: string): string {
    source + "->" + destination
  }

  lemma KeysAreDistinct(source: string, d: string, e: string)
    ensures Key(source, d) == Key(source, e) ==> d == e
  {
    assert Key(source, d)[|source| + 2..] == d && Key(source, e)[|source| + 2..] == e;
  }

  predicate Open(m: map<string, int>, cooldown: int, key: string, now: int) {
    key in m ==> now - m[key] >= cooldown
  }

  function Stamped(m: map<string, int>, pruned: set<string>, key: string, at: int): map<string, int> {
    (m - pruned)[key := at]
  }

  // ---- the steps ----

  datatype Event =
    | Failed(g: nat, key: string, checkType: CheckType)
    | Asked(g: nat, checked: int, stamped: int, pruned: set<string>)
    | Finished(g: nat)

  /** The clock is read for the check, for each pruned entry and for the stamp, in this order. */
  predicate Enabled(s: State, e: Event) {
    match e
    case Failed(g, key, checkType) => g !in s.holders
    case Asked(g, checked, stamped, pruned) =>
      g in s.holders && s.holders[g].Asking? && s.clock <= checked <= stamped
      && forall k :: k in pruned ==> k in s.lastRun && stamped - s.lastRun[k] >= s.cooldown
    case Finished(g) => g in s.holders && s.holders[g].Tracing?
  }

  /** A failure that finds no slot leaves everything as it is. */
  function Trigger(s: State, g: nat, key: string, checkType: CheckType): State {
    if !Traced(checkType) || |s.holders| >= MAX_TRACES then s else s.(holders := s.holders[g := Asking(key)])
  }

  function Ask(s: State, g: nat, checked: int, stamped: int, pruned: set<string>): State
    requires g in s.holders
  {
    var key := s.holders[g].key;
    if Open(s.lastRun, s.cooldown, key, checked) then
      s.(lastRun := Stamped(s.lastRun, pruned, key, stamped), full := s.full[key := stamped],
         holders := s.holders[g := Tracing(key)], starts := s.starts + [Start(key, stamped)], clock := stamped)
    else s.(holders := s.holders - {g}, clock := checked)
  }

  function Next(s: State, e: Event): State
    requires Enabled(s, e)
  {
    match e
    case Failed(g, key, checkType) => Trigger(s, g, key, checkType)
    case Asked(g, checked, stamped, pruned) => Ask(s, g, checked, stamped, pruned)
    case Finished(g) => s.(holders := s.holders - {g})
  }

  // ---- the invariant ----

  /** Entries that were pruned expired. */
  ghost predicate PrunedOk(s: State) {
    && (forall k :: k in s.lastRun ==> k in s.full && s.full[k] == s.lastRun[k])
    && (forall k :: k in s.full && k !in s.lastRun ==> s.clock - s.full[k] >= s.cooldown)
    && (forall k :: k in s.full ==> s.full[k] <= s.clock)
  }

  ghost predicate StartsOk(s: State) {
    && (forall i :: 0 <= i < |s.starts| ==> s.starts[i].key in s.full && s.starts[i].at <= s.full[s.starts[i].key])
    && (forall k :: k in s.full ==> Start(k, s.full[k]) in s.starts)
    && (forall i, j :: 0 <= i < j < |s.starts| && s.starts[i].key == s.starts[j].key ==>
      s.starts[j].at - s.starts[i].at >= s.cooldown)
  }

  ghost predicate Inv(s: State) {
    |s.holders| <= MAX_TRACES && PrunedOk(s) && StartsOk(s)
  }

  /** From now on the pruned map answers as the full history does. */
  lemma PruningIsInvisible(s: State, key: string, now: int)
    requires PrunedOk(s) && s.clock <= now
    ensures Open(s.lastRun, s.cooldown, key, now) <==> Open(s.full, s.cooldown, key, now)
  {
  }

  lemma AskKeepsPruned(s: State, g: nat, checked: int, stamped: int, pruned: set<string>)
    requires Inv(s) && Enabled(s, Asked(g, checked, stamped, pruned))
    ensures PrunedOk(Ask(s, g, checked, stamped, pruned))
  {
  }

  lemma AskKeepsStarts(s: State, g: nat, checked: int, stamped: int, pruned: set<string>)
    requires Inv(s) && Enabled(s, Asked(g, checked, stamped, pruned))
    ensures StartsOk(Ask(s, g, checked, stamped, pruned))
  {
    var key := s.holders[g].key;
    var t := Ask(s, g, checked, stamped, pruned);
    PruningIsInvisible(s, key, checked);
    if Open(s.lastRun, s.cooldown, key, checked) {
      forall i, j | 0 <= i < j < |t.starts| && t.starts[i].key == t.starts[j].key
        ensures t.starts[j].at - t.starts[i].at >= t.cooldown
      {
        assert j == |s.starts| ==> s.starts[i].at <= s.full[key];
      }
    }
  }

  lemma TriggerKeepsInv(s: State, g: nat, key: string, checkType: CheckType)
    requires Inv(s) && g !in s.holders
    ensures Inv(Trigger(s, g, key, checkType))
  {
    assert s.holders[g := Asking(key)].Keys == s.holders.Keys + {g};
    assert |s.holders[g := Asking(key)]| == |s.holders[g := Asking(key)].Keys|;
  }

  lemma AskKeepsInv(s: State, g: nat, checked: int, stamped: int, pruned: set<string>)
    requires Inv(s) && Enabled(s, Asked(g, checked, stamped, pruned))
    ensures Inv(Ask(s, g, checked, stamped, pruned))
  {
    AskKeepsPruned(s, g, checked, stamped, pruned);
    AskKeepsStarts(s, g, checked, stamped, pruned);
    hide PrunedOk, StartsOk;
    SameHolders(s.holders, g, Tracing(s.holders[g].key));
  }

  lemma FinishKeepsInv(s: State, g: nat)
    requires Inv(s) && g in s.holders
    ensures Inv(s.(holders := s.holders - {g}))
  {
    SameHolders(s.holders, g, s.holders[g]);
  }

  lemma SameHolders(holders: map<nat, Holder>, g: nat, h: Holder)
    requires g in holders
    ensures |holders - {g}| < |holders| && |holders[g := h]| == |holders|
  {
    assert (holders - {g}).Keys == holders.Keys - {g} && holders[g := h].Keys == holders.Keys;
    assert |(holders - {g}).Keys| == |holders - {g}| && |holders[g := h].Keys| == |holders[g := h]|;
    assert |holders.Keys| == |holders|;
  }

  lemma NextKeepsInv(s: State, e: Event)
    requires Inv(s) && Enabled(s, e)
    ensures Inv(Next(s, e)) && Next(s, e).cooldown == s.cooldown && s.clock <= Next(s, e).clock
  {
    hide Inv;
    match e
    case Failed(g, key, checkType) => TriggerKeepsInv(s, g, key, checkType);
    case Asked(g, checked, stamped, pruned) => AskKeepsInv(s, g, checked, stamped, pruned);
    case Finished(g) => FinishKeepsInv(s, g);
  }

  ghost predicate IsRun(events: seq<Event>, states: seq<State>) {
    && |states| == |events| + 1
    && states[0] == State(states[0].cooldown, map[], map[], map[], [], states[0].clock)
    && forall i :: 0 <= i < |events| ==> Enabled(states[i], events[i]) && states[i + 1] == Next(states[i], events[i])
  }

  lemma {:induction false} RunKeepsInv(events: seq<Event>, states: seq<State>, k: nat)
    requires IsRun(events, states) && k < |states|
    ensures Inv(states[k]) && states[k].cooldown == states[0].cooldown
    decreases k
  {
    if k > 0 {
      RunKeepsInv(events, states, k - 1);
      assert states[k - 1 + 1] == Next(states[k - 1], events[k - 1]);
      hide Inv, Next, Enabled;
      NextKeepsInv(states[k - 1], events[k - 1]);
    }
  }

  /** In every run: at most four traces at once, two of a pair a cooldown apart, and a failure that finds
      the slots taken changes nothing, so its pair may be traced at once when it fails again. */
  lemma EveryRunIsBounded(events: seq<Event>, states: seq<State>, k: nat)
    requires IsRun(events, states) && k < |states|
    ensures |states[k].holders| <= 4
    ensures forall i, j :: 0 <= i < j < |states[k].starts| && states[k].starts[i].key == states[k].starts[j].key ==>
      states[k].starts[j].at - states[k].starts[i].at >= states[0].cooldown
    ensures k < |events| && events[k].Failed? && |states[k].holders| == 4 ==> states[k + 1] == states[k]
  {
    RunKeepsInv(events, states, k);
  }

  /** A trace starts exactly when every earlier one of its pair is a cooldown back: the map that forgets
      answers as the whole history does. */
  lemma EveryRunAnswersInFull(events: seq<Event>, states: seq<State>, k: nat)
    requires IsRun(events, states) && k < |events| && events[k].Asked?
    ensures var s, e := states[k], events[k];
      var key := s.holders[e.g].key;
      states[k + 1].starts ==
        if forall i :: 0 <= i < |s.starts| && s.starts[i].key == key ==> e.checked - s.starts[i].at >= s.cooldown
        then s.starts + [Start(key, e.stamped)] else s.starts
  {
    RunKeepsInv(events, states, k);
    var s, e := states[k], events[k];
    var key := s.holders[e.g].key;
    PruningIsInvisible(s, key, e.checked);
    if key in s.full {
      var i :| 0 <= i < |s.starts| && s.starts[i] == Start(key, s.full[key]);
    }
  }

  /** In every run: a slot is taken by a failed tcp, udp or icmp probe that finds fewer than four in use,
      becomes a trace or is free again once the cooldown is asked, and is free when the trace ends; no
      step touches the slot of another. */
  lemma EveryRunReturnsSlots(events: seq<Event>, states: seq<State>, k: nat)
    requires IsRun(events, states) && k < |events|
    ensures var s, t := states[k], states[k + 1];
      match events[k]
      case Failed(g, key, checkType) =>
        t.holders == if checkType in {TCP, UDP, ICMP} && |s.holders| < 4 then s.holders[g := Asking(key)] else s.holders
      case Asked(g, checked, stamped, pruned) =>
        t.holders == if |t.starts| > |s.starts| then s.holders[g := Tracing(s.holders[g].key)] else s.holders - {g}
      case Finished(g) => t.holders == s.holders - {g}
  {
    assert states[k + 1] == Next(states[k], events[k]);
  }

  // ---- the object ----

  class MTRChecker {
    const cooldown: int
    var lastRun: map<string, int>

    constructor (cooldown: int)
      ensures this.cooldown == cooldown && lastRun == map[]
    {
      this.cooldown, lastRun := cooldown, map[];
    }

    /** checked, swept and stamped are the clock at the check, the pruning and the stamp. */
    method TryAcquire(source: string, destination: string, checked: int, swept: int, stamped: int) returns (ok: bool)
      requires checked <= swept <= stamped
      modifies this
      ensures ok <==> Open(old(lastRun), cooldown, Key(source, destination), checked)
      ensures !ok ==> lastRun == old(lastRun)
      ensures forall k :: k in Expired(old(lastRun), cooldown, swept) ==> stamped - old(lastRun)[k] >= cooldown
      ensures ok ==> forall k :: k != Key(source, destination) ==>
        (k in lastRun <==> k in old(lastRun) && swept - old(lastRun)[k] < cooldown)
      ensures ok ==>
        lastRun == Stamped(old(lastRun), Expired(old(lastRun), cooldown, swept), Key(source, destination), stamped)
    {
      var key := Key(source, destination);
      if key in lastRun && checked - lastRun[key] < cooldown {
        return false;
      }
      var left := lastRun.Keys;
      ghost var seen: set<string> := {};
      while left != {}
        invariant left !! seen && left + seen == old(lastRun).Keys
        invariant lastRun == old(lastRun) - (Expired(old(lastRun), cooldown, swept) * seen)
        decreases left
      {
        var k :| k in left;
        if swept - lastRun[k] >= cooldown {
          lastRun := lastRun - {k};
        }
        left, seen := left - {k}, seen + {k};
      }
      assert Expired(old(lastRun), cooldown, swept) * seen == Expired(old(lastRun), cooldown, swept);
      lastRun := lastRun[key := stamped];
      ok := true;
    }
  }

  /** The scheduler's part: the slots in use, each with the goroutine that holds it. */
  class Scheduler {
    const source: string
    const mtr: MTRChecker
    var holders: map<nat, Holder>
    ghost var full: map<string, int>
    ghost var starts: seq<Start>
    ghost var clock: int

    constructor (source: string, mtr: MTRChecker, ghost clock: int)
      requires mtr.lastRun == map[]
      ensures this.source == source && this.mtr == mtr && View() == State(mtr.cooldown, map[], map[], map[], [], clock)
    {
      this.source, this.mtr, holders, full, starts, this.clock := source, mtr, map[], map[], [], clock;
    }

    ghost function View(): State
      reads this, mtr
    {
      State(mtr.cooldown, mtr.lastRun, full, holders, starts, clock)
    }

    /** The semaphore: a failure that finds every slot taken changes nothing. */
    method TakeSlot(g: nat, destination: string, checkType: CheckType) returns (taken: bool)
      requires g !in holders
      modifies this`holders
      ensures View() == Next(old(View()), Failed(g, Key(source, destination), checkType))
      ensures taken <==> g in holders
    {
      taken := Traced(checkType) && |holders| < MAX_TRACES;
      if taken {
        holders := holders[g := Asking(Key(source, destination))];
      }
    }

    /** The cooldown, once a slot is held: the trace starts, or the slot is free again. */
    method StartTrace(g: nat, destination: string, checked: int, swept: int, stamped: int) returns (started: bool)
      requires g in holders && holders[g] == Asking(Key(source, destination))
      requires clock <= checked <= swept <= stamped
      modifies this`holders, this`full, this`starts, this`clock, mtr
      ensures var e := Asked(g, checked, stamped, Expired(old(mtr.lastRun), mtr.cooldown, swept));
        Enabled(old(View()), e) && View() == Next(old(View()), e)
      ensures started <==> |starts| > |old(starts)|
    {
      started := mtr.TryAcquire(source, destination, checked, swept, stamped);
      if started {
        holders, full := holders[g := Tracing(Key(source, destination))], full[Key(source, destination) := stamped];
        starts, clock := starts + [Start(Key(source, destination), stamped)], stamped;
      } else {
        holders, clock := holders - {g}, checked;
      }
    }

    method Finish(g: nat)
      requires g in holders && holders[g].Tracing?
      modifies this`holders
      ensures View() == Next(old(View()), Finished(g))
    {
      holders := holders - {g};
    }
  }

  function Expired(m: map<string, int>, cooldown: int, now: int): set<string> {
    set k | k in m && now - m[k] >= cooldown
  }
}
