/** The agent's side of external checks: an assignment is parsed, cut at maxTargets, swapped into the
    checker without duplicates, and moved to a rebuilt checker on a reload; gauges of checks that left are
    retired and late results filtered. Gauges are the set of live (target, check type) pairs. */
module ExternalGauges {
  import opened Options

  datatype CheckType = TCP | ICMP | DNS | HTTP

  /** The port is written in decimal. */
  datatype Spec = Spec(definition: string, name: string, address: string, port: string, checkType: CheckType)

  /** An assigned spec as the agent's own validation finds it. */
  datatype Entry = Valid(spec: Spec) | Refused

  type Check = (string, CheckType)

  datatype Detail = Detail(name: string, checkType: CheckType, notRun: bool, denied: bool)

  function CheckOf(p: Spec): Check { (p.name, p.checkType) }

  function Checks(list: seq<Spec>): set<Check> {
    set p | p in list :: CheckOf(p)
  }

  function Names(list: seq<Spec>): set<string> {
    set p | p in list :: p.name
  }

  predicate HasGauge(t: CheckType) {
    t == ICMP || t == HTTP
  }

  // ---- identity of a target across assignments ----

  function TypeName(t: CheckType): string {
    match t
    case TCP => "tcp"
    case ICMP => "icmp"
    case DNS => "dns"
    case HTTP => "http"
  }

  /** The parts with a bar between them. */
  function Join(parts: seq<string>): string {
    if parts == [] then "" else if |parts| == 1 then parts[0] else parts[0] + "|" + Join(parts[1..])
  }

  function StateKey(p: Spec): string {
    if p.definition != "" then "def:" + p.definition
    else Join([TypeName(p.checkType), p.name, p.address, p.port])
  }

  function Keys(list: seq<Spec>): set<string> {
    set p | p in list :: StateKey(p)
  }

  /** The first spec of every key. */
  function Dedup(list: seq<Spec>): seq<Spec> {
    if list == [] then []
    else
      var front, last := list[..|list| - 1], list[|list| - 1];
      if StateKey(last) in Keys(front) then Dedup(front) else Dedup(front) + [last]
  }

  /** A bar ends the first part, if there is none in it. */
  lemma FirstBar(a: string, x: string, b: string, y: string)
    requires '|' !in a && '|' !in b
    ensures a + "|" + x == b + "|" + y ==> a == b && x == y
  {
    var s, t := a + "|" + x, b + "|" + y;
    assert s[..|a|] == a && s[|a|] == '|' && s[|a| + 1..] == x;
    assert t[..|b|] == b && t[|b|] == '|' && t[|b| + 1..] == y;
    assert |a| < |b| ==> t[|a|] == b[|a|];
    assert |b| < |a| ==> s[|b|] == a[|b|];
  }

  lemma KeyWithoutDefinition(p: Spec)
    requires p.definition == ""
    ensures StateKey(p) == TypeName(p.checkType) + "|" + (p.name + "|" + (p.address + "|" + p.port))
  {
    var parts := [TypeName(p.checkType), p.name, p.address, p.port];
    assert parts[1..] == [p.name, p.address, p.port] && parts[1..][1..] == [p.address, p.port];
    assert parts[1..][1..][1..] == [p.port] && Join([p.port]) == p.port;
    assert Join([p.address, p.port]) == p.address + "|" + p.port by {
      assert [p.address, p.port][1..] == [p.port];
    }
    assert Join([p.name, p.address, p.port]) == p.name + "|" + Join([p.address, p.port]);
  }

  /** No bar in what the key is made of. */
  predicate Plain(p: Spec) {
    '|' !in p.name && '|' !in p.address
  }

  /** Targets under definition ids are told apart by these, others by type, name, address and port, and
      the two kinds never meet. */
  lemma KeysTellApart(p: Spec, q: Spec)
    ensures p.definition != "" && q.definition != "" ==> (StateKey(p) == StateKey(q) <==> p.definition == q.definition)
    ensures p.definition != "" && q.definition == "" ==> StateKey(p) != StateKey(q)
    ensures p.definition == "" && q.definition == "" && Plain(p) && Plain(q) ==>
      (StateKey(p) == StateKey(q) <==> p == q)
  {
    if p.definition != "" && q.definition != "" {
      assert StateKey(p)[4..] == p.definition && StateKey(q)[4..] == q.definition;
    } else if p.definition != "" {
      KeyWithoutDefinition(q);
      hide Join;
      assert StateKey(p)[1] == 'e' && StateKey(q)[1] == TypeName(q.checkType)[1];
    } else if q.definition == "" && Plain(p) && Plain(q) {
      KeyWithoutDefinition(p);
      KeyWithoutDefinition(q);
      hide StateKey;
      FirstBar(TypeName(p.checkType), p.name + "|" + (p.address + "|" + p.port),
               TypeName(q.checkType), q.name + "|" + (q.address + "|" + q.port));
      FirstBar(p.name, p.address + "|" + p.port, q.name, q.address + "|" + q.port);
      FirstBar(p.address, p.port, q.address, q.port);
    }
  }

  // ---- an assignment ----

  function Parsed(entries: seq<Entry>): seq<Spec> {
    if entries == [] then []
    else Parsed(entries[..|entries| - 1]) + if entries[|entries| - 1].Valid? then [entries[|entries| - 1].spec] else []
  }

  function Cut(list: seq<Spec>, limit: int): seq<Spec> {
    if 0 < limit < |list| then list[..limit] else list
  }

  /** retireDepartedExternalTargets: by name when no check of the target is left, by check otherwise. */
  function Retired(gauges: set<Check>, applied: seq<Spec>, next: seq<Spec>): set<Check> {
    set g | g in gauges
      && !(g.0 in Names(applied) && g.0 !in Names(next))
      && !(g in Checks(applied) && g.0 in Names(next) && g !in Checks(next))
  }

  /** checker and policy in force, what a reload replaced and has not reconciled yet, the last
      assignment, and the gauges. */
  datatype State = State(
    cur: Option<seq<Spec>>, limit: int, replaced: Option<Option<seq<Spec>>>,
    last: Option<seq<Entry>>, gauges: set<Check>)

  function SpecsOf(c: Option<seq<Spec>>): seq<Spec> {
    if c.None? then [] else c.value
  }

  function Apply(s: State, entries: seq<Entry>, retireFrom: seq<Spec>): State {
    if s.cur.None? then s
    else
      var next := Cut(Parsed(entries), s.limit);
      s.(gauges := Retired(s.gauges, retireFrom, next), cur := Some(Dedup(next)))
  }

  function Assign(s: State, entries: seq<Entry>): State {
    if s.cur.None? then s else Apply(s.(last := Some(entries)), entries, s.cur.value)
  }

  function Rebuild(s: State, enabled: bool, limit: int): State {
    s.(cur := if enabled then Some([]) else None, limit := limit, replaced := Some(s.cur))
  }

  function Reconcile(s: State): State
    requires s.replaced.Some?
  {
    var prev := SpecsOf(s.replaced.value);
    var t := s.(replaced := None);
    if s.cur.None? then t.(gauges := Retired(s.gauges, prev, []), last := None)
    else if s.last.Some? then Apply(t, s.last.value, prev)
    else t
  }

  /** One result of a sweep, if its check is still assigned. */
  function Record(s: State, d: Detail): State {
    var check := (d.name, d.checkType);
    if check !in Checks(SpecsOf(s.cur)) || d.notRun then s
    else if d.denied then s.(gauges := s.gauges - {check})
    else if HasGauge(d.checkType) then s.(gauges := s.gauges + {check})
    else s
  }

  // ---- lists ----

  lemma {:induction false} DedupHas(list: seq<Spec>)
    ensures Keys(Dedup(list)) == Keys(list)
    ensures forall p :: p in Dedup(list) ==> p in list
    ensures forall i, j :: 0 <= i < j < |Dedup(list)| ==> StateKey(Dedup(list)[i]) != StateKey(Dedup(list)[j])
  {
    hide StateKey;
    if list != [] {
      var front, last := list[..|list| - 1], list[|list| - 1];
      DedupHas(front);
      assert list == front + [last];
      assert Keys(list) == Keys(front) + {StateKey(last)};
      assert forall p :: p in Dedup(front) ==> StateKey(p) in Keys(Dedup(front));
    }
  }

  lemma RetiredIs(gauges: set<Check>, applied: seq<Spec>, next: seq<Spec>)
    requires gauges <= Checks(applied)
    ensures Retired(gauges, applied, next) == gauges * Checks(next)
  {
    forall g | g in gauges ensures g in Retired(gauges, applied, next) <==> g in Checks(next) {
      var p :| p in applied && CheckOf(p) == g;
      assert g.0 in Names(applied);
      if g in Checks(next) {
        var q :| q in next && CheckOf(q) == g;
        assert g.0 in Names(next);
      }
    }
  }

  // ---- the invariant ----

  /** The specs the live gauges stem from. */
  function Behind(s: State): seq<Spec> {
    if s.replaced.Some? then SpecsOf(s.replaced.value) else SpecsOf(s.cur)
  }

  ghost predicate Inv(s: State) {
    && s.gauges <= Checks(Behind(s)) && (forall g :: g in s.gauges ==> HasGauge(g.1))
    && (s.replaced.Some? ==> SpecsOf(s.cur) == [])
    && (s.last.None? ==> Behind(s) == [])
  }

  /** No check that has gauges, was probed before and is still assigned goes with the duplicate keys. */
  ghost predicate HidesNothing(prev: seq<Spec>, next: seq<Spec>) {
    forall p :: p in next && HasGauge(p.checkType) && CheckOf(p) in Checks(prev) ==> CheckOf(p) in Checks(Dedup(next))
  }

  // ---- steps ----

  datatype Event =
    | Assigned(entries: seq<Entry>)
    | Rebuilt(enabled: bool, limit: int)
    | Reconciled
    | Swept(details: seq<Detail>)

  function RecordAll(s: State, details: seq<Detail>): State {
    if details == [] then s else Record(RecordAll(s, details[..|details| - 1]), details[|details| - 1])
  }

  /** A reload reconciles before it lets an assignment or another reload in; results come at any time. */
  predicate Enabled(s: State, e: Event) {
    match e
    case Assigned(entries) => s.replaced.None?
    case Rebuilt(enabled, limit) => s.replaced.None?
    case Reconciled => s.replaced.Some?
    case Swept(details) => true
  }

  function Next(s: State, e: Event): State
    requires e.Reconciled? ==> s.replaced.Some?
  {
    match e
    case Assigned(entries) => Assign(s, entries)
    case Rebuilt(enabled, limit) => Rebuild(s, enabled, limit)
    case Reconciled => Reconcile(s)
    case Swept(details) => RecordAll(s, details)
  }

  /** A list applied at the limit in force, over the specs it takes over from, hides nothing. */
  ghost predicate Safely(s: State, e: Event) {
    match e
    case Assigned(entries) => HidesNothing(SpecsOf(s.cur), Cut(Parsed(entries), s.limit))
    case Rebuilt(enabled, limit) => true
    case Reconciled => s.cur.Some? && s.last.Some? ==> HidesNothing(Behind(s), Cut(Parsed(s.last.value), s.limit))
    case Swept(details) => true
  }

  // ---- every step keeps it ----

  /** Live gauges within the checks of prev, as they are before a list is applied over it. */
  ghost predicate Stems(s: State, prev: seq<Spec>) {
    s.gauges <= Checks(prev) && forall g :: g in s.gauges ==> HasGauge(g.1)
  }

  lemma ApplyIs(s: State, entries: seq<Entry>, prev: seq<Spec>)
    requires Stems(s, prev) && s.cur.Some? && s.replaced.None? && s.last.Some?
    ensures var next := Cut(Parsed(entries), s.limit);
      Inv(Apply(s, entries, prev)) <==> s.gauges * Checks(next) <= Checks(Dedup(next))
  {
    RetiredIs(s.gauges, prev, Cut(Parsed(entries), s.limit));
    hide Retired, Dedup, Parsed, Checks;
  }

  lemma ApplyKeepsInv(s: State, entries: seq<Entry>, prev: seq<Spec>)
    requires Stems(s, prev) && s.cur.Some? && s.replaced.None? && s.last.Some?
    requires HidesNothing(prev, Cut(Parsed(entries), s.limit))
    ensures Inv(Apply(s, entries, prev))
  {
    hide Dedup, Parsed, Apply, Inv;
    var next := Cut(Parsed(entries), s.limit);
    ApplyIs(s, entries, prev);
    forall g | g in s.gauges * Checks(next) ensures g in Checks(Dedup(next)) {
      var p :| p in next && CheckOf(p) == g;
    }
  }

  lemma AssignKeepsInv(s: State, entries: seq<Entry>)
    requires Inv(s) && Safely(s, Assigned(entries)) && s.replaced.None?
    ensures Inv(Assign(s, entries))
  {
    hide HidesNothing, Apply, Checks;
    if s.cur.Some? {
      ApplyKeepsInv(s.(last := Some(entries)), entries, s.cur.value);
    }
  }

  lemma ReconcileKeepsInv(s: State)
    requires Inv(s) && Safely(s, Reconciled) && s.replaced.Some?
    ensures Inv(Reconcile(s))
  {
    hide HidesNothing, Apply, Parsed;
    var prev := SpecsOf(s.replaced.value);
    if s.cur.None? {
      RetiredIs(s.gauges, prev, []);
    } else if s.last.Some? {
      ApplyKeepsInv(s.(replaced := None), s.last.value, prev);
    }
  }

  lemma RecordKeepsInv(s: State, d: Detail)
    requires Inv(s)
    ensures Inv(Record(s, d))
  {
  }

  lemma {:induction false} RecordAllKeepsInv(s: State, details: seq<Detail>)
    requires Inv(s)
    ensures Inv(RecordAll(s, details)) && RecordAll(s, details).(gauges := s.gauges) == s
  {
    if details != [] {
      RecordAllKeepsInv(s, details[..|details| - 1]);
      RecordKeepsInv(RecordAll(s, details[..|details| - 1]), details[|details| - 1]);
    }
  }

  lemma NextKeepsInv(s: State, e: Event)
    requires Inv(s) && Enabled(s, e) && Safely(s, e)
    ensures Inv(Next(s, e))
  {
    match e
    case Assigned(entries) => AssignKeepsInv(s, entries);
    case Rebuilt(enabled, limit) =>
    case Reconciled => ReconcileKeepsInv(s);
    case Swept(details) => RecordAllKeepsInv(s, details);
  }

  // ---- runs ----

  ghost predicate IsRun(events: seq<Event>, states: seq<State>) {
    && |states| == |events| + 1
    && states[0].gauges == {} && SpecsOf(states[0].cur) == [] && states[0].replaced.None? && states[0].last.None?
    && forall i :: 0 <= i < |events| ==> Enabled(states[i], events[i]) && states[i + 1] == Next(states[i], events[i])
  }

  ghost predicate SafeUpTo(events: seq<Event>, states: seq<State>, k: nat)
    requires k <= |events| && k <= |states|
  {
    forall i :: 0 <= i < k ==> Safely(states[i], events[i])
  }

  lemma {:induction false} RunKeepsInv(events: seq<Event>, states: seq<State>, k: nat)
    requires IsRun(events, states) && k < |states| && SafeUpTo(events, states, k)
    ensures Inv(states[k])
    decreases k
  {
    if k > 0 {
      RunKeepsInv(events, states, k - 1);
      assert states[k - 1 + 1] == Next(states[k - 1], events[k - 1]);
      hide Inv, Safely, Next;
      NextKeepsInv(states[k - 1], events[k - 1]);
    }
  }

  lemma {:induction false} RecordAllWrites(s: State, details: seq<Detail>)
    ensures RecordAll(s, details).(gauges := s.gauges) == s
  {
    if details != [] {
      RecordAllWrites(s, details[..|details| - 1]);
    }
  }

  /** The last result of the check in a sweep that ran. */
  ghost function LastRun(details: seq<Detail>, check: Check): Option<Detail> {
    if details == [] then None
    else
      var last := details[|details| - 1];
      if (last.name, last.checkType) == check && !last.notRun then Some(last)
      else LastRun(details[..|details| - 1], check)
  }

  /** After a sweep an assigned icmp or http check has its gauge exactly if its last result that ran was
      not a denial, or none ran and it had it before; other checks gain none. */
  lemma {:induction false} LastResultDecides(s: State, details: seq<Detail>, check: Check)
    ensures check.1 == ICMP || check.1 == HTTP ==>
      (check in RecordAll(s, details).gauges <==>
        if check in Checks(SpecsOf(s.cur)) && LastRun(details, check).Some? then !LastRun(details, check).value.denied
        else check in s.gauges)
    ensures check.1 == TCP || check.1 == DNS ==> check in RecordAll(s, details).gauges ==> check in s.gauges
  {
    if details != [] {
      LastResultDecides(s, details[..|details| - 1], check);
      RecordAllWrites(s, details[..|details| - 1]);
      hide Checks, RecordAll;
      assert RecordAll(s, details) ==
        Record(RecordAll(s, details[..|details| - 1]), details[|details| - 1]) by {
        RecordLast(s, details);
      }
    }
  }

  lemma RecordLast(s: State, details: seq<Detail>)
    requires details != []
    ensures RecordAll(s, details) == Record(RecordAll(s, details[..|details| - 1]), details[|details| - 1])
  {
  }

  /** While the lists applied hide nothing: outside a reload every live gauge names an assigned check;
      inside one, a check of the checker it replaces, and none is written. */
  lemma EveryRunKeepsGauges(events: seq<Event>, states: seq<State>, k: nat)
    requires IsRun(events, states) && k < |states| && SafeUpTo(events, states, k)
    ensures forall g :: g in states[k].gauges ==> g.1 == ICMP || g.1 == HTTP
    ensures states[k].replaced.None? ==> states[k].gauges <= Checks(SpecsOf(states[k].cur))
    ensures states[k].replaced.Some? ==> states[k].gauges <= Checks(SpecsOf(states[k].replaced.value))
    ensures k < |events| && states[k].replaced.Some? && events[k].Swept? ==> states[k + 1] == states[k]
  {
    RunKeepsInv(events, states, k);
    if k < |events| && states[k].replaced.Some? && events[k].Swept? {
      NothingRecorded(states[k], events[k].details);
    }
  }

  lemma {:induction false} NothingRecorded(s: State, details: seq<Detail>)
    requires SpecsOf(s.cur) == []
    ensures RecordAll(s, details) == s
  {
    if details != [] {
      NothingRecorded(s, details[..|details| - 1]);
    }
  }

  // ---- which steps are safe ----

  /** The checks of a list that have gauges. */
  function Measured(list: seq<Spec>): set<Check> {
    set p | p in list && HasGauge(p.checkType) :: CheckOf(p)
  }

  /** A list that hides something breaks the invariant once everything probed before has reported. */
  lemma HidingBreaks(s: State, entries: seq<Entry>, prev: seq<Spec>)
    requires s.gauges == Measured(prev) && s.cur.Some? && s.replaced.None? && s.last.Some?
    requires !HidesNothing(prev, Cut(Parsed(entries), s.limit))
    ensures !Inv(Apply(s, entries, prev))
  {
    hide Parsed, Dedup, Apply, Inv;
    var next := Cut(Parsed(entries), s.limit);
    var p :| p in next && HasGauge(p.checkType) && CheckOf(p) in Checks(prev) && CheckOf(p) !in Checks(Dedup(next));
    var q :| q in prev && CheckOf(q) == CheckOf(p);
    ApplyIs(s, entries, prev);
    assert CheckOf(p) in s.gauges * Checks(next);
  }

  /** Exactly a list that hides nothing can be applied over prev, whatever gauges of prev are live. */
  lemma ApplyIsSafeIff(s: State, entries: seq<Entry>, prev: seq<Spec>)
    requires s.cur.Some? && s.replaced.None? && s.last.Some?
    ensures HidesNothing(prev, Cut(Parsed(entries), s.limit)) <==>
      forall gauges :: gauges <= Measured(prev) ==> Inv(Apply(s.(gauges := gauges), entries, prev))
  {
    hide HidesNothing, Parsed, Apply, Inv;
    if HidesNothing(prev, Cut(Parsed(entries), s.limit)) {
      forall gauges | gauges <= Measured(prev) ensures Inv(Apply(s.(gauges := gauges), entries, prev)) {
        ApplyKeepsInv(s.(gauges := gauges), entries, prev);
      }
    } else {
      HidingBreaks(s.(gauges := Measured(prev)), entries, prev);
    }
  }

  /** One good result of every check in the list. */
  function Reports(list: seq<Spec>): seq<Detail> {
    seq(|list|, i requires 0 <= i < |list| => Detail(list[i].name, list[i].checkType, false, false))
  }

  lemma MeasuredAt(list: seq<Spec>, p: Spec)
    ensures Checks(list + [p]) == Checks(list) + {CheckOf(p)}
    ensures Measured(list + [p]) == Measured(list) + if HasGauge(p.checkType) then {CheckOf(p)} else {}
  {
  }

  lemma NothingMeasured()
    ensures Measured([]) == {}
  {
  }

  lemma {:induction false} ReportsAreRecorded(s: State, list: seq<Spec>)
    requires Checks(list) <= Checks(SpecsOf(s.cur))
    ensures RecordAll(s, Reports(list)) == s.(gauges := s.gauges + Measured(list))
  {
    hide Checks, Measured;
    if list == [] {
      NothingMeasured();
    } else {
      var front, last := list[..|list| - 1], list[|list| - 1];
      assert list == front + [last];
      MeasuredAt(front, last);
      ReportsAreRecorded(s, front);
      assert Reports(list)[..|front|] == Reports(front);
      hide Reports;
    }
  }

  /** An assignment is safe, whatever results came in before it, exactly when its list hides nothing. */
  lemma AssignIsSafeIff(s: State, entries: seq<Entry>)
    requires Inv(s) && s.replaced.None?
    ensures Safely(s, Assigned(entries)) <==> forall details :: Inv(Assign(RecordAll(s, details), entries))
  {
    if Safely(s, Assigned(entries)) {
      forall details ensures Inv(Assign(RecordAll(s, details), entries)) {
        RecordAllKeepsInv(s, details);
        AssignKeepsInv(RecordAll(s, details), entries);
      }
    } else {
      hide HidesNothing, RecordAll, Inv;
      AllReport(s);
      var t := s.(gauges := Measured(s.cur.value));
      HidingBreaks(t.(last := Some(entries)), entries, s.cur.value);
      assert !Inv(Assign(RecordAll(s, Reports(s.cur.value)), entries));
    }
  }

  lemma AllReport(s: State)
    requires Inv(s) && s.replaced.None?
    ensures RecordAll(s, Reports(SpecsOf(s.cur))) == s.(gauges := Measured(SpecsOf(s.cur)))
  {
    hide RecordAll;
    ReportsAreRecorded(s, SpecsOf(s.cur));
    assert s.gauges <= Measured(SpecsOf(s.cur));
  }

  /** So is a reload, with the specs and the assignment it finds and the limit it brings; one that
      switches external checks off always is. */
  lemma ReloadIsSafeIff(s: State, enabled: bool, limit: int)
    requires Inv(s) && s.replaced.None?
    ensures Safely(Rebuild(s, enabled, limit), Reconciled) <==>
      forall details :: Inv(Reconcile(Rebuild(RecordAll(s, details), enabled, limit)))
  {
    if Safely(Rebuild(s, enabled, limit), Reconciled) {
      forall details ensures Inv(Reconcile(Rebuild(RecordAll(s, details), enabled, limit))) {
        RecordAllKeepsInv(s, details);
        ReconcileKeepsInv(Rebuild(RecordAll(s, details), enabled, limit));
      }
    } else {
      hide HidesNothing, RecordAll, Inv;
      AllReport(s);
      var t := s.(gauges := Measured(SpecsOf(s.cur)));
      HidingBreaks(Rebuild(t, enabled, limit).(replaced := None), s.last.value, SpecsOf(s.cur));
      assert !Inv(Reconcile(Rebuild(RecordAll(s, Reports(SpecsOf(s.cur))), enabled, limit)));
    }
  }

  // ---- a reload that does not lower the limit ----

  /** What is probed is the last assignment at the limit in force; without external checks none is
      remembered, and without one nothing is probed. */
  ghost predicate AppliesLast(s: State) {
    && (s.replaced.Some? ==> SpecsOf(s.cur) == [])
    && (s.replaced.None? && s.cur.None? ==> s.last.None?)
    && (s.replaced.None? && s.last.None? ==> SpecsOf(s.cur) == [])
    && (s.replaced.None? && s.last.Some? ==> s.cur == Some(Dedup(Cut(Parsed(s.last.value), s.limit))))
  }

  lemma {:induction false} EveryRunAppliesLast(events: seq<Event>, states: seq<State>, k: nat)
    requires IsRun(events, states) && k < |states|
    ensures AppliesLast(states[k])
    decreases k
  {
    hide Retired, Parsed, Dedup, RecordAll;
    if k > 0 {
      EveryRunAppliesLast(events, states, k - 1);
      assert states[k - 1 + 1] == Next(states[k - 1], events[k - 1]);
      if events[k - 1].Swept? {
        RecordAllWrites(states[k - 1], events[k - 1].details);
      }
    }
  }

  lemma {:induction false} DedupGrows(list: seq<Spec>, n: nat)
    requires n <= |list|
    ensures Dedup(list[..n]) <= Dedup(list)
  {
    hide StateKey, Keys;
    if n < |list| {
      var front := list[..|list| - 1];
      DedupGrows(front, n);
      assert front[..n] == list[..n];
    } else {
      assert list[..n] == list;
    }
  }

  lemma LongerHidesNothing(next: seq<Spec>, n: nat)
    requires n <= |next|
    ensures HidesNothing(Dedup(next[..n]), next)
  {
    DedupGrows(next, n);
    hide Dedup;
    assert forall p :: p in Dedup(next[..n]) ==> p in Dedup(next);
  }

  /** In every run, a reload that does not lower maxTargets, where zero or less is no limit, is safe
      whatever was assigned. */
  lemma RaisedLimitIsSafe(events: seq<Event>, states: seq<State>, k: nat, enabled: bool, limit: int)
    requires IsRun(events, states) && k < |states| && states[k].replaced.None?
    requires limit <= 0 || 0 < states[k].limit <= limit
    ensures Safely(Rebuild(states[k], enabled, limit), Reconciled)
  {
    var s := states[k];
    EveryRunAppliesLast(events, states, k);
    if enabled && s.cur.Some? && s.last.Some? {
      hide IsRun, HidesNothing, Parsed, Dedup;
      var all := Parsed(s.last.value);
      var next := Cut(all, limit);
      var n := |Cut(all, s.limit)|;
      assert n <= |next| && next[..n] == Cut(all, s.limit);
      LongerHidesNothing(next, n);
    }
  }

  // ---- lists that are safe over anything ----

  /** Dropping duplicate keys drops no check that has gauges. */
  ghost predicate Faithful(list: seq<Spec>) {
    forall p :: p in list && HasGauge(p.checkType) ==> CheckOf(p) in Checks(Dedup(list))
  }

  /** Exactly the faithful lists hide nothing whatever was probed before. */
  lemma FaithfulHidesNothing(next: seq<Spec>)
    ensures Faithful(next) <==> forall prev :: HidesNothing(prev, next)
  {
    hide Dedup;
    if forall prev :: HidesNothing(prev, next) {
      assert HidesNothing(next, next);
    }
  }

  ghost predicate DistinctKeys(list: seq<Spec>) {
    forall i, j :: 0 <= i < j < |list| ==> StateKey(list[i]) != StateKey(list[j])
  }

  lemma DistinctFront(list: seq<Spec>, n: nat)
    requires DistinctKeys(list) && n <= |list|
    ensures DistinctKeys(list[..n]) && (n < |list| ==> StateKey(list[n]) !in Keys(list[..n]))
  {
    hide StateKey;
    var front := list[..n];
    assert forall i :: 0 <= i < |front| ==> front[i] == list[i];
  }

  lemma {:induction false} DistinctKeysStay(list: seq<Spec>)
    requires DistinctKeys(list)
    ensures Dedup(list) == list
  {
    hide StateKey, Keys, DistinctKeys;
    if list != [] {
      DistinctFront(list, |list| - 1);
      DistinctKeysStay(list[..|list| - 1]);
    }
  }

  /** Distinct state keys are enough, at every limit. */
  lemma DistinctKeysAreFaithful(list: seq<Spec>, limit: int)
    requires DistinctKeys(list)
    ensures Faithful(Cut(list, limit))
  {
    hide StateKey, DistinctKeys, Dedup;
    if 0 < limit < |list| {
      DistinctFront(list, limit);
    }
    DistinctKeysStay(Cut(list, limit));
  }

  /** Reached by steps that hide nothing. */
  ghost predicate Reachable(s: State) {
    exists events, states :: IsRun(events, states) && SafeUpTo(events, states, |events|) && states[|events|] == s
  }

  lemma ReachedIsInv(s: State)
    requires Reachable(s)
    ensures Inv(s)
  {
    var events, states :| IsRun(events, states) && SafeUpTo(events, states, |events|) && states[|events|] == s;
    RunKeepsInv(events, states, |events|);
  }

  /** An agent probing exactly this check, with its gauge live. */
  function Probing(p: Spec, limit: int): State {
    State(Some([p]), limit, None, Some([Valid(p)]), {CheckOf(p)})
  }

  /** An agent with external checks and none assigned yet. */
  function Idle(limit: int): State {
    State(Some([]), limit, None, None, {})
  }

  lemma ParsedAt(entries: seq<Entry>, p: Spec)
    ensures Parsed(entries + [Valid(p)]) == Parsed(entries) + [p]
  {
    assert (entries + [Valid(p)])[..|entries|] == entries;
  }

  lemma OneEntry(p: Spec)
    ensures Parsed([Valid(p)]) == [p] && Dedup([p]) == [p] && Checks([p]) == {CheckOf(p)}
  {
    hide StateKey, Keys, Dedup;
    ParsedAt([], p);
    NothingKept([]);
    ListAt([], p);
    assert [] + [Valid(p)] == [Valid(p)] && [] + [p] == [p];
    hide Parsed;
  }

  function GoodResult(p: Spec): Event {
    Swept([Detail(p.name, p.checkType, false, false)])
  }

  lemma GoodResultIs(s: State, p: Spec)
    requires HasGauge(p.checkType) && CheckOf(p) in Checks(SpecsOf(s.cur))
    ensures Next(s, GoodResult(p)) == s.(gauges := s.gauges + {CheckOf(p)})
  {
    hide Checks;
    var detail := Detail(p.name, p.checkType, false, false);
    assert [detail][..0] == [] && RecordAll(s, []) == s;
  }

  /** It was assigned the check and one result came in. */
  lemma ProbingRun(p: Spec, limit: int) returns (events: seq<Event>, states: seq<State>)
    requires HasGauge(p.checkType)
    ensures IsRun(events, states) && |events| == 2 && SafeUpTo(events, states, 2) && states[2] == Probing(p, limit)
  {
    OneEntry(p);
    hide StateKey, Dedup, Parsed, RecordAll;
    events := [Assigned([Valid(p)]), GoodResult(p)];
    var s1 := Next(Idle(limit), events[0]);
    assert s1 == Probing(p, limit).(gauges := {});
    GoodResultIs(s1, p);
    states := [Idle(limit), s1, Probing(p, limit)];
    assert Safely(states[0], events[0]);
  }

  /** At a fixed limit, exactly the assignments whose duplicates hide no check are safe in every state a
      run can reach. */
  lemma FaithfulIsExact(entries: seq<Entry>, limit: int)
    ensures Faithful(Cut(Parsed(entries), limit)) <==>
      forall s :: Reachable(s) && s.replaced.None? && s.limit == limit ==> Inv(Assign(s, entries))
  {
    hide Parsed, Dedup, Reachable;
    var next := Cut(Parsed(entries), limit);
    if Faithful(next) {
      forall s | Reachable(s) && s.replaced.None? && s.limit == limit ensures Inv(Assign(s, entries)) {
        ReachedIsInv(s);
        AssignKeepsInv(s, entries);
      }
    } else {
      var p :| p in next && HasGauge(p.checkType) && CheckOf(p) !in Checks(Dedup(next));
      var s := Probing(p, limit);
      ProbingIsReached(p, limit);
      assert p in s.cur.value && Measured([p]) == {CheckOf(p)};
      HidingBreaks(s.(last := Some(entries)), entries, s.cur.value);
      assert !Inv(Assign(s, entries));
    }
  }

  lemma ProbingIsReached(p: Spec, limit: int)
    requires HasGauge(p.checkType)
    ensures Reachable(Probing(p, limit))
  {
    hide SafeUpTo, Enabled, Next;
    var events, states := ProbingRun(p, limit);
    assert IsRun(events, states) && SafeUpTo(events, states, |events|) && states[|events|] == Probing(p, limit);
  }

  // ---- runs that leave a gauge behind ----

  lemma TwoEntries(p: Spec, q: Spec)
    requires StateKey(p) == StateKey(q)
    ensures Parsed([Valid(p), Valid(q)]) == [p, q] && Parsed([]) == []
    ensures Dedup([p, q]) == [p] && Keys([p, q]) == {StateKey(p)}
  {
    hide StateKey, Keys, Dedup;
    OneEntry(p);
    ParsedAt([Valid(p)], q);
    NothingKept([]);
    ListAt([], p);
    ListAt([p], q);
    assert [] + [p] == [p] && [p] + [q] == [p, q] && [Valid(p)] + [Valid(q)] == [Valid(p), Valid(q)];
  }

  lemma ThreeEntries(a: Spec, b: Spec, c: Spec)
    requires StateKey(a) == StateKey(b) != StateKey(c)
    ensures Parsed([Valid(a), Valid(b), Valid(c)]) == [a, b, c] && Dedup([a, b, c]) == [a, c] && Dedup([a, b]) == [a]
  {
    hide StateKey, Keys, Dedup, Parsed;
    TwoEntries(a, b);
    ParsedAt([Valid(a), Valid(b)], c);
    ListAt([a, b], c);
    assert [Valid(a), Valid(b)] + [Valid(c)] == [Valid(a), Valid(b), Valid(c)];
    assert [a, b] + [c] == [a, b, c] && [a] + [c] == [a, c];
  }

  /** Two specs under one definition id: the second is never probed, yet its gauge stays, and stays when
      the assignment is dropped altogether. */
  lemma DuplicateLeavesGauge(p: Spec, q: Spec) returns (events: seq<Event>, states: seq<State>)
    requires StateKey(p) == StateKey(q) && p.name != q.name && HasGauge(q.checkType)
    ensures IsRun(events, states) && |events| == 4 && SafeUpTo(events, states, 2)
    ensures events[2..] == [Assigned([Valid(p), Valid(q)]), Assigned([])]
    ensures states[3].cur == Some([p]) && CheckOf(q) in states[3].gauges
    ensures states[4].cur == Some([]) && CheckOf(q) in states[4].gauges
  {
    TwoEntries(p, q);
    events, states := ProbingRun(q, 0);
    hide StateKey, Dedup, Parsed;
    var e3, e4 := Assigned([Valid(p), Valid(q)]), Assigned([]);
    var s3 := Next(states[2], e3);
    assert q in [p, q] && q in [q] && q.name !in Names([p]) && CheckOf(q) !in Checks([p]);
    RetiredIs({CheckOf(q)}, [q], [p, q]);
    assert s3.cur == Some([p]) && CheckOf(q) in s3.gauges;
    events, states := events + [e3, e4], states + [s3, Next(s3, e4)];
  }

  /** The list assigned without a limit, and one result of the third spec. */
  function ThreeProbed(a: Spec, b: Spec, c: Spec): State {
    State(Some([a, c]), 0, None, Some([Valid(a), Valid(b), Valid(c)]), {CheckOf(c)})
  }

  lemma ThreeAssigned(a: Spec, b: Spec, c: Spec)
    requires StateKey(a) == StateKey(b) != StateKey(c) && CheckOf(b) == CheckOf(c)
    ensures Faithful([a, b, c])
    ensures Next(Idle(0), Assigned([Valid(a), Valid(b), Valid(c)])) == ThreeProbed(a, b, c).(gauges := {})
  {
    ThreeEntries(a, b, c);
    hide StateKey, Dedup, Parsed;
    assert a in [a, c] && c in [a, c];
  }

  lemma ThreeReloaded(a: Spec, b: Spec, c: Spec)
    requires StateKey(a) == StateKey(b) != StateKey(c) && CheckOf(a) != CheckOf(b) == CheckOf(c)
    ensures var t := Reconcile(Rebuild(ThreeProbed(a, b, c), true, 2));
      t.cur == Some([a]) && CheckOf(c) in t.gauges && CheckOf(c) !in Checks([a])
  {
    ThreeEntries(a, b, c);
    hide StateKey, Dedup, Parsed;
    assert c in [a, c] && [a, b, c][..2] == [a, b] && b in [a, b];
    RetiredIs({CheckOf(c)}, [a, c], [a, b]);
    hide Retired;
  }

  /** The third spec carries the second one's check. Cut at two by a reload, the list hides that check,
      and its gauge stays although every step before was safe and the whole list is faithful. */
  lemma LoweredLimitLeavesGauge(a: Spec, b: Spec, c: Spec) returns (events: seq<Event>, states: seq<State>)
    requires StateKey(a) == StateKey(b) != StateKey(c)
    requires CheckOf(a) != CheckOf(b) == CheckOf(c) && HasGauge(c.checkType)
    ensures Faithful([a, b, c])
    ensures IsRun(events, states) && |events| == 4 && SafeUpTo(events, states, 3)
    ensures events[2..] == [Rebuilt(true, 2), Reconciled] && states[0].limit == 0
    ensures states[2].cur == Some([a, c]) && states[4].cur == Some([a])
    ensures CheckOf(c) in states[4].gauges && CheckOf(c) !in Checks([a])
  {
    hide StateKey, Assign, RecordAll, Reconcile, Faithful;
    ThreeAssigned(a, b, c);
    ThreeReloaded(a, b, c);
    var s2 := ThreeProbed(a, b, c);
    var s1 := s2.(gauges := {});
    var s3 := Rebuild(s2, true, 2);
    assert c in [a, c];
    GoodResultIs(s1, c);
    events := [Assigned([Valid(a), Valid(b), Valid(c)]), GoodResult(c), Rebuilt(true, 2), Reconciled];
    states := [Idle(0), s1, s2, s3, Reconcile(s3)];
    assert Safely(states[0], events[0]) && Safely(states[1], events[1]) && Safely(states[2], events[2]);
  }

  // ---- the objects ----

  lemma ListAt(list: seq<Spec>, p: Spec)
    ensures Checks(list + [p]) == Checks(list) + {CheckOf(p)} && Names(list + [p]) == Names(list) + {p.name}
    ensures Keys(list + [p]) == Keys(list) + {StateKey(p)}
    ensures Dedup(list + [p]) == if StateKey(p) in Keys(list) then Dedup(list) else Dedup(list) + [p]
  {
    hide StateKey;
    assert (list + [p])[..|list|] == list;
  }

  lemma NothingKept(list: seq<Spec>)
    requires list == []
    ensures Dedup(list) == [] && Keys(list) == {}
  {
  }

  lemma DedupKeys(list: seq<Spec>)
    ensures Keys(Dedup(list)) == Keys(list)
  {
    DedupHas(list);
  }

  datatype Counts = Counts(probes: nat, failures: nat, denied: nat)

  class ExternalChecker {
    var specs: seq<Spec>
    var state: map<string, Counts>

    ghost predicate Ok()
      reads this
    {
      state.Keys == Keys(specs)
    }

    constructor ()
      ensures Ok() && specs == []
    {
      specs, state := [], map[];
    }

    /** A target keeps its counts across a swap as long as its key does. */
    method SetSpecs(next: seq<Spec>)
      modifies this
      ensures Ok() && specs == Dedup(next)
      ensures forall k :: k in state ==> state[k] == if k in old(state) then old(state)[k] else Counts(0, 0, 0)
    {
      hide StateKey, Dedup, Keys;
      var carried: map<string, Counts> := map[];
      var kept := [];
      NothingKept(next[..0]);
      for i := 0 to |next|
        invariant kept == Dedup(next[..i]) && carried.Keys == Keys(next[..i])
        invariant state == old(state)
        invariant forall k :: k in carried ==> carried[k] == if k in state then state[k] else Counts(0, 0, 0)
      {
        ListAt(next[..i], next[i]);
        assert next[..i + 1] == next[..i] + [next[i]];
        var key := StateKey(next[i]);
        if key !in carried {
          carried := carried[key := if key in state then state[key] else Counts(0, 0, 0)];
          kept := kept + [next[i]];
        }
      }
      assert next[..|next|] == next;
      DedupKeys(next);
      specs, state := kept, carried;
    }

    /** Every assigned target has counts, so this is the applied set. */
    method Applied() returns (out: seq<Spec>)
      requires Ok()
      ensures out == specs
    {
      out := [];
      for i := 0 to |specs|
        invariant out == specs[..i]
      {
        hide StateKey;
        assert specs[i] in specs;
        if StateKey(specs[i]) in state {
          out := out + [specs[i]];
        }
      }
    }
  }

  lemma {:induction false} RetiredSteps(gauges: set<Check>, applied: seq<Spec>, p: Spec, next: seq<Spec>)
    ensures Retired(gauges, applied + [p], next) ==
      if p.name !in Names(next) then set g | g in Retired(gauges, applied, next) && g.0 != p.name
      else if CheckOf(p) !in Checks(next) then Retired(gauges, applied, next) - {CheckOf(p)}
      else Retired(gauges, applied, next)
  {
    ListAt(applied, p);
    hide Checks, Names;
  }

  /** The loops of retireDepartedExternalTargets; a repeated retirement is harmless, the source skips it. */
  method RetireDeparted(gauges0: set<Check>, applied: seq<Spec>, next: seq<Spec>) returns (gauges: set<Check>)
    ensures gauges == Retired(gauges0, applied, next)
  {
    gauges := gauges0;
    if applied == [] {
      return;
    }
    var keepName, keepCheck := Wanted(next);
    hide Checks, Names, Retired;
    var seenName: set<string>, seenCheck: set<Check> := {}, {};
    NothingRetired(gauges0, next);
    for i := 0 to |applied|
      invariant gauges == Retired(gauges0, applied[..i], next)
      invariant forall g :: g in gauges ==> g.0 !in seenName && g !in seenCheck
    {
      var p := applied[i];
      RetiredSteps(gauges0, applied[..i], p, next);
      assert applied[..i + 1] == applied[..i] + [p];
      if p.name !in keepName {
        if p.name !in seenName {
          seenName := seenName + {p.name};
          gauges := set g | g in gauges && g.0 != p.name;
        }
      } else if CheckOf(p) !in keepCheck && CheckOf(p) !in seenCheck {
        seenCheck := seenCheck + {CheckOf(p)};
        gauges := gauges - {CheckOf(p)};
      }
    }
    assert applied[..|applied|] == applied;
  }

  lemma NothingRetired(gauges: set<Check>, next: seq<Spec>)
    ensures Retired(gauges, [], next) == gauges
  {
  }

  method Wanted(next: seq<Spec>) returns (names: set<string>, checks: set<Check>)
    ensures names == Names(next) && checks == Checks(next)
  {
    names, checks := {}, {};
    for i := 0 to |next|
      invariant names == Names(next[..i]) && checks == Checks(next[..i])
    {
      ListAt(next[..i], next[i]);
      assert next[..i + 1] == next[..i] + [next[i]];
      names, checks := names + {next[i].name}, checks + {CheckOf(next[i])};
    }
    assert next[..|next|] == next;
  }

  /** The parse loop and the cut. */
  method Admit(entries: seq<Entry>, limit: int) returns (list: seq<Spec>, dropped: nat)
    ensures list == Cut(Parsed(entries), limit) && |Parsed(entries)| + dropped == |entries|
  {
    list, dropped := [], 0;
    for i := 0 to |entries|
      invariant list == Parsed(entries[..i]) && |list| + dropped == i
    {
      assert entries[..i + 1][..i] == entries[..i];
      if entries[i].Refused? {
        dropped := dropped + 1;
      } else {
        list := list + [entries[i].spec];
      }
    }
    assert entries[..|entries|] == entries;
    if limit > 0 && |list| > limit {
      list := list[..limit];
    }
  }

  class Agent {
    var externalChecker: ExternalChecker?
    var maxTargets: int
    var lastAssignment: Option<seq<Entry>>
    var gauges: set<Check>

    constructor (externalChecker: ExternalChecker?, maxTargets: int)
      ensures this.externalChecker == externalChecker && this.maxTargets == maxTargets
      ensures lastAssignment == None && gauges == {}
    {
      this.externalChecker, this.maxTargets, lastAssignment, gauges := externalChecker, maxTargets, None, {};
    }

    ghost predicate Ok()
      reads this, externalChecker
    {
      externalChecker != null ==> externalChecker.Ok()
    }

    ghost function View(replaced: Option<Option<seq<Spec>>>): State
      reads this, externalChecker
    {
      var cur := if externalChecker == null then None else Some(externalChecker.specs);
      State(cur, maxTargets, replaced, lastAssignment, gauges)
    }

    method ApplyExternalAssignmentLocked(entries: seq<Entry>, retireFrom: ExternalChecker)
      requires Ok() && retireFrom.Ok()
      modifies this`gauges, externalChecker
      ensures Ok() && View(None) == Apply(old(View(None)), entries, old(retireFrom.specs))
    {
      if externalChecker == null {
        return;
      }
      var list, _ := Admit(entries, maxTargets);
      var applied := retireFrom.Applied();
      gauges := RetireDeparted(gauges, applied, list);
      externalChecker.SetSpecs(list);
    }

    method ApplyExternalAssignment(entries: seq<Entry>)
      requires Ok()
      modifies this`gauges, this`lastAssignment, externalChecker
      ensures Ok() && View(None) == Assign(old(View(None)), entries)
    {
      if externalChecker == null {
        return;
      }
      lastAssignment := Some(entries);
      ApplyExternalAssignmentLocked(entries, externalChecker);
    }

    /** The checker in force was replaced by the one it has now; prev is the one before. */
    method ReconcileExternal(prev: ExternalChecker?)
      requires Ok() && (prev != null ==> prev.Ok()) && prev != externalChecker
      requires externalChecker != null ==> externalChecker.specs == []
      modifies this`gauges, this`lastAssignment, externalChecker
      ensures Ok()
      ensures View(None) == Reconcile(old(View(Some(if prev == null then None else Some(prev.specs)))))
    {
      if externalChecker == null {
        var applied := prev.Applied();
        gauges := RetireDeparted(gauges, applied, []);
        lastAssignment := None;
      } else if lastAssignment.Some? {
        var from := if prev == null then externalChecker else prev;
        ApplyExternalAssignmentLocked(lastAssignment.value, from);
      }
    }

    /** The filter on a sweep's results, and what each one does to the gauges. */
    method DeliverExternal(details: seq<Detail>)
      requires Ok()
      modifies this`gauges
      ensures View(None) == RecordAll(old(View(None)), details)
    {
      ghost var s := View(None);
      var checks: set<Check> := {};
      if externalChecker != null {
        var applied := externalChecker.Applied();
        var _, c := Wanted(applied);
        checks := c;
      }
      for i := 0 to |details|
        invariant View(None) == RecordAll(s, details[..i])
      {
        assert details[..i + 1][..i] == details[..i];
        var d := details[i];
        if (d.name, d.checkType) in checks && !d.notRun {
          if d.denied {
            gauges := gauges - {(d.name, d.checkType)};
          } else if HasGauge(d.checkType) {
            gauges := gauges + {(d.name, d.checkType)};
          }
        }
      }
      assert details[..|details|] == details;
    }
  }
}
