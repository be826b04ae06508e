/** On-demand tasks: a dispatch installs a pending entry, sends, waits for the first outcome in its one-slot
    channel, and cleans up; reports look the entry up and deposit later; a demotion fails all. */
module Tasks {
  import opened Options

  datatype TaskResult = TaskResult(task: string, agent: string, payload: string)

  datatype Outcome = Reported(res: TaskResult) | Failed(error: string)

  /** How a dispatch ends. */
  datatype Answer = Got(outcome: Outcome) | NotSubscribed | Cancelled

  datatype Phase = Sending | Waiting | Leaving(answer: Answer) | Returned(answer: Answer)

  datatype Call = Call(task: string, agent: string, phase: Phase)

  datatype Pending = Pending(agent: string, call: nat)

  /** A report that found its entry and has not deposited yet. */
  datatype Report = Report(res: TaskResult, call: nat)

  datatype State = State(
    subscribers: map<string, set<nat>>, pending: map<string, Pending>, slots: map<nat, Option<Outcome>>,
    calls: map<nat, Call>, reports: set<Report>)

  predicate InFlight(c: Call) {
    !c.phase.Returned?
  }

  // ---- the steps ----

  function Install(s: State, call: nat, agent: string, task: string): State {
    if agent !in s.subscribers then s.(calls := s.calls[call := Call(task, agent, Returned(NotSubscribed))])
    else s.(pending := s.pending[task := Pending(agent, call)], slots := s.slots[call := None],
            calls := s.calls[call := Call(task, agent, Sending)])
  }

  function Move(s: State, call: nat, phase: Phase): State
    requires call in s.calls
  {
    s.(calls := s.calls[call := s.calls[call].(phase := phase)])
  }

  function Receive(s: State, call: nat): State
    requires call in s.calls && call in s.slots && s.slots[call].Some?
  {
    Move(s, call, Leaving(Got(s.slots[call].value))).(slots := s.slots[call := None])
  }

  function CleanUp(s: State, call: nat): State
    requires call in s.calls && s.calls[call].phase.Leaving?
  {
    Move(s, call, Returned(s.calls[call].phase.answer)).(pending := s.pending - {s.calls[call].task})
  }

  function LookUp(s: State, res: TaskResult): State {
    if res.task in s.pending && s.pending[res.task].agent == res.agent then
      s.(reports := s.reports + {Report(res, s.pending[res.task].call)})
    else s
  }

  /** The first outcome wins. */
  function Put(slots: map<nat, Option<Outcome>>, call: nat, o: Outcome): map<nat, Option<Outcome>> {
    if call in slots && slots[call].None? then slots[call := Some(o)] else slots
  }

  function Deposit(s: State, r: Report): State {
    s.(slots := Put(s.slots, r.call, Reported(r.res)), reports := s.reports - {r})
  }

  function FailAll(s: State, error: string): State {
    var slots := map c | c in s.slots ::
      if s.slots[c].None? && IsPending(s.pending, c) then Some(Failed(error)) else s.slots[c];
    s.(slots := slots)
  }

  predicate IsPending(pending: map<string, Pending>, call: nat) {
    exists t :: t in pending && pending[t].call == call
  }

  datatype Event =
    | Installed(call: nat, agent: string, task: string)
    | Sent(call: nat, taken: bool)
    | Received(call: nat)
    | CtxDone(call: nat)
    | CleanedUp(call: nat)
    | LookedUp(res: TaskResult)
    | Deposited(report: Report)
    | AllFailed(error: string)
    | StreamsSet(agent: string, streams: set<nat>)

  /** In-flight task ids are distinct. */
  predicate Enabled(s: State, e: Event) {
    match e
    case Installed(call, agent, task) => call !in s.calls && task !in s.pending
    case Sent(call, taken) => call in s.calls && s.calls[call].phase.Sending?
    case Received(call) => call in s.calls && s.calls[call].phase.Waiting? && call in s.slots && s.slots[call].Some?
    case CtxDone(call) => call in s.calls && (s.calls[call].phase.Sending? || s.calls[call].phase.Waiting?)
    case CleanedUp(call) => call in s.calls && s.calls[call].phase.Leaving?
    case LookedUp(res) => true
    case Deposited(report) => report in s.reports
    case AllFailed(error) => true
    case StreamsSet(agent, streams) => true
  }

  function Next(s: State, e: Event): State
    requires Enabled(s, e)
  {
    match e
    case Installed(call, agent, task) => Install(s, call, agent, task)
    case Sent(call, taken) => Move(s, call, if taken then Waiting else Leaving(NotSubscribed))
    case Received(call) => Receive(s, call)
    case CtxDone(call) => Move(s, call, Leaving(Cancelled))
    case CleanedUp(call) => CleanUp(s, call)
    case LookedUp(res) => LookUp(s, res)
    case Deposited(report) => Deposit(s, report)
    case AllFailed(error) => FailAll(s, error)
    case StreamsSet(agent, streams) =>
      s.(subscribers := if streams == {} then s.subscribers - {agent} else s.subscribers[agent := streams])
  }

  // ---- the invariant ----

  /** An outcome that is a result is one the dispatch asked for, from the agent it asked. */
  predicate Fits(c: Call, o: Outcome) {
    o.Reported? ==> o.res.task == c.task && o.res.agent == c.agent
  }

  ghost predicate PendingOk(s: State) {
    && (forall t :: t in s.pending ==> var c := s.pending[t].call;
        && c in s.calls && c in s.slots && InFlight(s.calls[c])
        && s.calls[c].task == t && s.calls[c].agent == s.pending[t].agent)
    && (forall c :: c in s.calls && InFlight(s.calls[c]) ==>
      s.calls[c].task in s.pending && s.pending[s.calls[c].task].call == c)
  }

  ghost predicate OutcomesOk(s: State) {
    && (forall c :: c in s.slots ==> c in s.calls && (s.slots[c].Some? ==> Fits(s.calls[c], s.slots[c].value)))
    && (forall r :: r in s.reports ==> r.call in s.calls && Fits(s.calls[r.call], Reported(r.res)))
    && (forall c :: c in s.calls ==> AnswerFits(s.calls[c]))
  }

  predicate AnswerFits(c: Call) {
    match c.phase
    case Leaving(a) => a.Got? ==> Fits(c, a.outcome)
    case Returned(a) => a.Got? ==> Fits(c, a.outcome)
    case _ => true
  }

  ghost predicate Inv(s: State) {
    PendingOk(s) && OutcomesOk(s)
  }

  lemma InstallKeepsInv(s: State, call: nat, agent: string, task: string)
    requires Inv(s) && call !in s.calls && task !in s.pending
    ensures Inv(Install(s, call, agent, task))
  {
  }

  lemma MoveKeepsInv(s: State, call: nat, phase: Phase)
    requires Inv(s) && call in s.calls && InFlight(s.calls[call]) && !phase.Returned?
    requires AnswerFits(s.calls[call].(phase := phase))
    ensures Inv(Move(s, call, phase))
  {
  }

  lemma ReceiveKeepsInv(s: State, call: nat)
    requires Inv(s) && call in s.calls && InFlight(s.calls[call]) && call in s.slots && s.slots[call].Some?
    ensures Inv(Receive(s, call))
  {
    MoveKeepsInv(s, call, Leaving(Got(s.slots[call].value)));
  }

  lemma CleanUpKeepsInv(s: State, call: nat)
    requires Inv(s) && call in s.calls && s.calls[call].phase.Leaving?
    ensures Inv(CleanUp(s, call))
  {
    var t := CleanUp(s, call);
    assert PendingOk(t) by {
      hide OutcomesOk;
    }
  }

  lemma NextKeepsInv(s: State, e: Event)
    requires Inv(s) && Enabled(s, e)
    ensures Inv(Next(s, e))
  {
    match e
    case Installed(call, agent, task) => InstallKeepsInv(s, call, agent, task);
    case Sent(call, taken) => MoveKeepsInv(s, call, if taken then Waiting else Leaving(NotSubscribed));
    case Received(call) => ReceiveKeepsInv(s, call);
    case CtxDone(call) => MoveKeepsInv(s, call, Leaving(Cancelled));
    case CleanedUp(call) => CleanUpKeepsInv(s, call);
    case LookedUp(res) =>
    case Deposited(report) =>
    case AllFailed(error) =>
    case StreamsSet(agent, streams) =>
  }

  ghost predicate IsRun(events: seq<Event>, states: seq<State>) {
    && |states| == |events| + 1 && states[0] == State(map[], map[], map[], map[], {})
    && forall i :: 0 <= i < |events| ==> Enabled(states[i], events[i]) && states[i + 1] == Next(states[i], events[i])
  }

  lemma RunStep(events: seq<Event>, states: seq<State>, k: nat)
    requires IsRun(events, states) && k + 1 < |states|
    ensures k < |events| && Enabled(states[k], events[k]) && states[k + 1] == Next(states[k], events[k])
  {
  }

  lemma {:induction false} RunKeepsInv(events: seq<Event>, states: seq<State>, k: nat)
    requires IsRun(events, states) && k < |states|
    ensures Inv(states[k])
    decreases k
  {
    if k > 0 {
      RunKeepsInv(events, states, k - 1);
      RunStep(events, states, k - 1);
      hide IsRun, Inv, Enabled, Next;
      NextKeepsInv(states[k - 1], events[k - 1]);
    }
  }

  /** In every run: a dispatch that returned a result returned one of its own task from the agent it was
      sent to, and the pending entries are exactly the dispatches in flight. */
  lemma EveryRunCorrelates(events: seq<Event>, states: seq<State>, k: nat, call: nat)
    requires IsRun(events, states) && k < |states| && call in states[k].calls
    ensures var c := states[k].calls[call];
      && (c.phase.Returned? && c.phase.answer.Got? && c.phase.answer.outcome.Reported? ==>
        c.phase.answer.outcome.res.task == c.task && c.phase.answer.outcome.res.agent == c.agent)
      && (InFlight(c) <==> IsPending(states[k].pending, call))
  {
    RunKeepsInv(events, states, k);
    hide IsRun;
    var c := states[k].calls[call];
    assert AnswerFits(c);
    if InFlight(c) {
      assert c.task in states[k].pending && states[k].pending[c.task].call == call;
    }
  }

  // ---- outcomes are neither lost nor replaced ----

  /** A returned answer never changes, and neither does an outcome until its dispatch takes it. */
  lemma StepKeepsOutcome(s: State, e: Event, call: nat)
    requires Inv(s) && Enabled(s, e) && call in s.calls
    ensures call in Next(s, e).calls
    ensures s.calls[call].phase.Returned? ==> Next(s, e).calls[call] == s.calls[call]
    ensures call in s.slots && s.slots[call].Some? && e != Received(call) ==>
      call in Next(s, e).slots && Next(s, e).slots[call] == s.slots[call]
  {
  }

  lemma {:induction false} OneAnswer(events: seq<Event>, states: seq<State>, i: nat, j: nat, call: nat)
    requires IsRun(events, states) && i <= j < |states| && call in states[i].calls
    requires states[i].calls[call].phase.Returned?
    ensures call in states[j].calls && states[j].calls[call] == states[i].calls[call]
    decreases j
  {
    hide Inv, Next, Enabled;
    if i < j {
      OneAnswer(events, states, i, j - 1, call);
      RunStep(events, states, j - 1);
      RunKeepsInv(events, states, j - 1);
      hide IsRun;
      StepKeepsOutcome(states[j - 1], events[j - 1], call);
    }
  }

  /** After a demotion every dispatch then in flight has an outcome waiting. */
  lemma FailAllReachesAll(s: State, error: string, call: nat)
    requires Inv(s) && call in s.calls && InFlight(s.calls[call])
    ensures call in FailAll(s, error).slots && FailAll(s, error).slots[call].Some?
  {
    assert s.pending[s.calls[call].task].call == call;
  }

  /** And keeps it until it takes it. */
  lemma {:induction false} FailedDispatchEnds(events: seq<Event>, states: seq<State>, i: nat, j: nat, call: nat)
    requires IsRun(events, states) && i < j < |states| && i < |events| && events[i].AllFailed?
    requires call in states[i].calls && InFlight(states[i].calls[call])
    requires forall k :: i < k < j && k < |events| ==> events[k] != Received(call)
    ensures call in states[j].slots && states[j].slots[call].Some? && call in states[j].calls
    decreases j
  {
    hide Inv, Next, Enabled;
    RunStep(events, states, j - 1);
    RunKeepsInv(events, states, j - 1);
    if j == i + 1 {
      FailStep(states[i], events[i], call);
    } else {
      FailedDispatchEnds(events, states, i, j - 1, call);
      hide IsRun;
      StepKeepsOutcome(states[j - 1], events[j - 1], call);
    }
  }

  lemma FailStep(s: State, e: Event, call: nat)
    requires Inv(s) && e.AllFailed? && call in s.calls && InFlight(s.calls[call])
    ensures Enabled(s, e) && var t := Next(s, e); call in t.slots && t.slots[call].Some? && call in t.calls
  {
    FailAllReachesAll(s, e.error, call);
  }

  // ---- what each dispatch returns, from the events alone ----

  /** The first outcome deposited for the call, or sent to everyone, since it was installed. */
  ghost function FirstOutcome(events: seq<Event>, n: nat, call: nat): Option<Outcome>
    requires n <= |events|
  {
    if n == 0 then None
    else
      var before := FirstOutcome(events, n - 1, call);
      match events[n - 1]
      case Installed(c, agent, task) => if c == call then None else before
      case Deposited(r) => if r.call == call && before.None? then Some(Reported(r.res)) else before
      case AllFailed(error) => if before.None? then Some(Failed(error)) else before
      case _ => before
  }

  /** The streams the agent was last left with. */
  ghost function OpenStreams(events: seq<Event>, n: nat, agent: string): set<nat>
    requires n <= |events|
  {
    if n == 0 then {}
    else if events[n - 1].StreamsSet? && events[n - 1].agent == agent then events[n - 1].streams
    else OpenStreams(events, n - 1, agent)
  }

  ghost predicate Happened(events: seq<Event>, n: nat, e: Event)
    requires n <= |events|
  {
    exists i :: 0 <= i < n && events[i] == e
  }

  /** Installed while its agent had no stream. */
  ghost predicate Refused(events: seq<Event>, n: nat, call: nat, agent: string, task: string)
    requires n <= |events|
  {
    exists i :: 0 <= i < n && events[i] == Installed(call, agent, task) && OpenStreams(events, i, agent) == {}
  }

  ghost predicate Explained(events: seq<Event>, n: nat, call: nat, c: Call, a: Answer)
    requires n <= |events|
  {
    match a
    case Got(outcome) => Happened(events, n, Received(call)) && FirstOutcome(events, n, call) == Some(outcome)
    case Cancelled => Happened(events, n, CtxDone(call))
    case NotSubscribed => Happened(events, n, Sent(call, false)) || Refused(events, n, call, c.agent, c.task)
  }

  predicate About(e: Event, call: nat) {
    (e.Installed? || e.Sent? || e.Received? || e.CtxDone? || e.CleanedUp?) && e.call == call
  }

  /** Where a dispatch stands follows from the events so far: before it is sent and while it waits, its
      slot holds the first outcome that came; when it leaves, its answer has its reason. */
  ghost predicate Traced(events: seq<Event>, n: nat, s: State, call: nat)
    requires n <= |events|
  {
    if call !in s.calls then forall i :: 0 <= i < n ==> !About(events[i], call)
    else
      var c := s.calls[call];
      match c.phase
      case Leaving(a) => Explained(events, n, call, c, a)
      case Returned(a) => Explained(events, n, call, c, a)
      case _ =>
        && !Refused(events, n, call, c.agent, c.task) && !Happened(events, n, Sent(call, false))
        && (c.phase.Waiting? <==> Happened(events, n, Sent(call, true)))
        && call in s.slots && s.slots[call] == FirstOutcome(events, n, call)
  }

  ghost predicate StreamsTraced(events: seq<Event>, n: nat, s: State)
    requires n <= |events|
  {
    forall agent :: agent in s.subscribers <==> OpenStreams(events, n, agent) != {}
  }

  lemma HappenedNext(events: seq<Event>, n: nat, e: Event)
    requires n < |events|
    ensures Happened(events, n + 1, e) <==> Happened(events, n, e) || events[n] == e
  {
  }

  lemma RefusedNext(events: seq<Event>, n: nat, call: nat, agent: string, task: string)
    requires n < |events|
    ensures Refused(events, n + 1, call, agent, task) <==>
      Refused(events, n, call, agent, task) ||
      (events[n] == Installed(call, agent, task) && OpenStreams(events, n, agent) == {})
  {
  }

  /** An answer keeps its reason. */
  lemma ExplainedStays(events: seq<Event>, n: nat, call: nat, c: Call, a: Answer)
    requires n < |events| && Explained(events, n, call, c, a) && (events[n].Installed? ==> events[n].call != call)
    ensures Explained(events, n + 1, call, c, a)
  {
    HappenedNext(events, n, Received(call));
    HappenedNext(events, n, CtxDone(call));
    HappenedNext(events, n, Sent(call, false));
    RefusedNext(events, n, call, c.agent, c.task);
    hide Happened, Refused;
  }

  /** The events of a new dispatch start with its installation. */
  lemma InstallIsTraced(events: seq<Event>, n: nat, s: State, call: nat)
    requires n < |events| && Enabled(s, events[n]) && Traced(events, n, s, call) && StreamsTraced(events, n, s)
    requires events[n].Installed? && events[n].call == call
    ensures Traced(events, n + 1, Next(s, events[n]), call)
  {
    var agent, task := events[n].agent, events[n].task;
    assert !Happened(events, n, Sent(call, false)) && !Happened(events, n, Sent(call, true));
    assert !Refused(events, n, call, agent, task);
    HappenedNext(events, n, Sent(call, false));
    HappenedNext(events, n, Sent(call, true));
    RefusedNext(events, n, call, agent, task);
    hide Happened, Refused;
  }

  lemma PhaseIsTraced(events: seq<Event>, n: nat, s: State, call: nat)
    requires n < |events| && Inv(s) && Enabled(s, events[n]) && Traced(events, n, s, call)
    requires call in s.calls && (s.calls[call].phase.Sending? || s.calls[call].phase.Waiting?)
    ensures Traced(events, n + 1, Next(s, events[n]), call)
  {
    var c := s.calls[call];
    HappenedNext(events, n, Sent(call, false));
    HappenedNext(events, n, Sent(call, true));
    HappenedNext(events, n, Received(call));
    HappenedNext(events, n, CtxDone(call));
    RefusedNext(events, n, call, c.agent, c.task);
    assert IsPending(s.pending, call) by {
      assert c.task in s.pending && s.pending[c.task].call == call;
    }
    hide Happened, Refused, Inv, IsPending;
  }

  lemma LeftIsTraced(events: seq<Event>, n: nat, s: State, call: nat)
    requires n < |events| && Enabled(s, events[n]) && Traced(events, n, s, call)
    requires call in s.calls && (s.calls[call].phase.Leaving? || s.calls[call].phase.Returned?)
    ensures Traced(events, n + 1, Next(s, events[n]), call)
  {
    ExplainedStays(events, n, call, s.calls[call], s.calls[call].phase.answer);
    hide Explained;
    assert Next(s, events[n]).calls[call].(phase := s.calls[call].phase) == s.calls[call];
    SameReason(events, n + 1, call, s.calls[call], Next(s, events[n]).calls[call], s.calls[call].phase.answer);
  }

  lemma SameReason(events: seq<Event>, n: nat, call: nat, c: Call, d: Call, a: Answer)
    requires n <= |events| && Explained(events, n, call, c, a) && c.agent == d.agent && c.task == d.task
    ensures Explained(events, n, call, d, a)
  {
  }

  lemma NextIsTraced(events: seq<Event>, n: nat, s: State, call: nat)
    requires n < |events| && Inv(s) && Enabled(s, events[n])
    requires Traced(events, n, s, call) && StreamsTraced(events, n, s)
    ensures Traced(events, n + 1, Next(s, events[n]), call)
  {
    hide Inv, Explained, StreamsTraced;
    if call in s.calls && (s.calls[call].phase.Leaving? || s.calls[call].phase.Returned?) {
      LeftIsTraced(events, n, s, call);
    } else if call in s.calls {
      PhaseIsTraced(events, n, s, call);
    } else if events[n].Installed? && events[n].call == call {
      InstallIsTraced(events, n, s, call);
    } else {
      hide Happened, Refused, FirstOutcome;
    }
  }

  lemma {:induction false} StreamsAreTraced(events: seq<Event>, states: seq<State>, n: nat)
    requires IsRun(events, states) && n < |states|
    ensures StreamsTraced(events, n, states[n])
  {
    if n > 0 {
      StreamsAreTraced(events, states, n - 1);
      RunStep(events, states, n - 1);
    }
  }

  /** In every run, from the events alone: an agent can be dispatched to exactly while it has a stream;
      a dispatch under way holds the first outcome that came, a report or a demotion, if any did; and one
      that is over was given that outcome, was cancelled, or had no stream to go to. */
  lemma {:induction false} EveryAnswerHasItsReason(events: seq<Event>, states: seq<State>, n: nat, call: nat)
    requires IsRun(events, states) && n < |states|
    ensures Traced(events, n, states[n], call) && StreamsTraced(events, n, states[n])
    decreases n
  {
    StreamsAreTraced(events, states, n);
    if n > 0 {
      EveryAnswerHasItsReason(events, states, n - 1, call);
      RunKeepsInv(events, states, n - 1);
      RunStep(events, states, n - 1);
      hide IsRun, Inv, Traced, StreamsTraced, Enabled, Next;
      NextIsTraced(events, n - 1, states[n - 1], call);
    }
  }

  /** A report finds its dispatch by task and agent while that is in flight, and nothing otherwise. */
  lemma LookUpFinds(s: State, res: TaskResult, r: Report)
    requires Inv(s)
    ensures r in Next(s, LookedUp(res)).reports <==>
      r in s.reports ||
      (r.res == res && r.call in s.calls && InFlight(s.calls[r.call])
       && s.calls[r.call].task == res.task && s.calls[r.call].agent == res.agent)
  {
  }

  /** Then it waits until it is deposited. */
  lemma ReportsWait(s: State, e: Event, r: Report)
    requires Enabled(s, e) && !e.LookedUp?
    ensures r in Next(s, e).reports <==> r in s.reports && e != Deposited(r)
  {
  }

  ghost predicate Leads(s: State, events: seq<Event>, t: State)
    decreases |events|
  {
    if events == [] then s == t else Enabled(s, events[0]) && Leads(Next(s, events[0]), events[1..], t)
  }

  lemma LeadsOneMore(s: State, e: Event, events: seq<Event>, t: State)
    requires Enabled(s, e) && Leads(Next(s, e), events, t)
    ensures Leads(s, [e] + events, t)
  {
    assert ([e] + events)[1..] == events;
  }

  /** A waiting dispatch without an outcome can be given any result of its task from its agent, and
      returns that. */
  lemma AnswerComesThrough(s: State, call: nat, res: TaskResult) returns (t: State)
    requires Inv(s) && call in s.calls && s.calls[call].phase.Waiting? && call in s.slots && s.slots[call].None?
    requires res.task == s.calls[call].task && res.agent == s.calls[call].agent
    ensures Leads(s, [LookedUp(res)] + ([Deposited(Report(res, call))] + ([Received(call)] + [CleanedUp(call)])), t)
    ensures call in t.calls && t.calls[call].phase == Returned(Got(Reported(res)))
    ensures call in t.slots && t.slots[call].None? && res.task !in t.pending
  {
    var r := Report(res, call);
    LookUpFinds(s, res, r);
    var s1 := Next(s, LookedUp(res));
    var s2 := Next(s1, Deposited(r));
    var s3 := Next(s2, Received(call));
    t := Next(s3, CleanedUp(call));
    hide Inv;
    LeadsOneMore(s3, CleanedUp(call), [], t);
    assert [CleanedUp(call)] + [] == [CleanedUp(call)];
    LeadsOneMore(s2, Received(call), [CleanedUp(call)], t);
    LeadsOneMore(s1, Deposited(r), [Received(call)] + [CleanedUp(call)], t);
    LeadsOneMore(s, LookedUp(res), [Deposited(r)] + ([Received(call)] + [CleanedUp(call)]), t);
  }

  /** From nothing: an agent opens a stream, a task is dispatched to it and sent, and waits. */
  lemma DispatchComesThrough(agent: string, task: string, stream: nat) returns (t: State)
    ensures var s := State(map[], map[], map[], map[], {});
      Leads(s, [StreamsSet(agent, {stream})] + ([Installed(0, agent, task)] + [Sent(0, true)]), t)
    ensures Inv(t) && 0 in t.calls && t.calls[0] == Call(task, agent, Waiting) && 0 in t.slots && t.slots[0].None?
  {
    var s := State(map[], map[], map[], map[], {});
    var s1 := Next(s, StreamsSet(agent, {stream}));
    var s2 := Next(s1, Installed(0, agent, task));
    t := Next(s2, Sent(0, true));
    LeadsOneMore(s2, Sent(0, true), [], t);
    assert [Sent(0, true)] + [] == [Sent(0, true)];
    LeadsOneMore(s1, Installed(0, agent, task), [Sent(0, true)], t);
    LeadsOneMore(s, StreamsSet(agent, {stream}), [Installed(0, agent, task)] + [Sent(0, true)], t);
  }

  /** A dispatch under way can be cancelled at any time. */
  lemma CancelComesThrough(s: State, call: nat) returns (t: State)
    requires Inv(s) && call in s.calls && (s.calls[call].phase.Sending? || s.calls[call].phase.Waiting?)
    ensures Leads(s, [CtxDone(call)] + [CleanedUp(call)], t)
    ensures call in t.calls && t.calls[call].phase == Returned(Cancelled) && s.calls[call].task !in t.pending
  {
    var s1 := Next(s, CtxDone(call));
    t := Next(s1, CleanedUp(call));
    LeadsOneMore(s1, CleanedUp(call), [], t);
    assert [CleanedUp(call)] + [] == [CleanedUp(call)];
    LeadsOneMore(s, CtxDone(call), [CleanedUp(call)], t);
  }

  // ---- reused ids ----

  /** Installing a dispatch to a subscribed agent keeps the entries exact if and only if its id is free. */
  lemma InstallIsExact(s: State, call: nat, agent: string, task: string)
    requires Inv(s) && call !in s.calls && agent in s.subscribers
    ensures Inv(Install(s, call, agent, task)) <==> task !in s.pending
  {
    if task !in s.pending {
      InstallKeepsInv(s, call, agent, task);
    } else {
      var first := s.pending[task].call;
      var t := Install(s, call, agent, task);
      assert first in t.calls && InFlight(t.calls[first]);
      assert t.calls[first].task == task && t.pending[task].call == call;
    }
  }

  /** A second dispatch under an id in flight: when the first ends it takes the second's entry with it,
      and no report reaches the second any more. */
  lemma ReusedIdIsOrphaned(s: State, call: nat, agent: string, res: TaskResult)
    requires Inv(s) && call !in s.calls && agent in s.subscribers && res.task in s.pending && res.agent == agent
    ensures var first := s.pending[res.task].call;
      var t := CleanUp(Move(Install(s, call, agent, res.task), first, Leaving(Cancelled)), first);
      t.calls[call].phase.Sending? && LookUp(t, res) == t
  {
  }

  // ---- the object ----

  predicate HasEmpty(slots: map<nat, Option<Outcome>>, call: nat) {
    call in slots && slots[call].None?
  }

  class TaskManager {
    var subscribers: map<string, set<nat>>
    var pending: map<string, Pending>
    var slots: map<nat, Option<Outcome>>
    ghost var calls: map<nat, Call>
    ghost var reports: set<Report>

    constructor ()
      ensures View() == State(map[], map[], map[], map[], {})
    {
      subscribers, pending, slots, calls, reports := map[], map[], map[], map[], {};
    }

    ghost function View(): State
      reads this
    {
      State(subscribers, pending, slots, calls, reports)
    }

    /** The first part of Dispatch, under the lock. */
    method Begin(call: nat, agent: string, task: string) returns (subscribed: bool)
      modifies this`pending, this`slots, this`calls
      ensures View() == Install(old(View()), call, agent, task) && subscribed == (agent in subscribers)
    {
      subscribed := agent in subscribers;
      if !subscribed {
        calls := calls[call := Call(task, agent, Returned(NotSubscribed))];
        return;
      }
      pending, slots := pending[task := Pending(agent, call)], slots[call := None];
      calls := calls[call := Call(task, agent, Sending)];
    }

    /** Its deferred part. */
    method End(call: nat, task: string)
      requires call in calls && calls[call].phase.Leaving? && calls[call].task == task
      modifies this`pending, this`calls
      ensures View() == CleanUp(old(View()), call)
    {
      pending := pending - {task};
      calls := calls[call := calls[call].(phase := Returned(calls[call].phase.answer))];
    }

    /** The first half of Report, under the lock: only the agent the task went to is listened to. */
    method LookUpReport(res: TaskResult) returns (found: Option<Report>)
      modifies this`reports
      ensures View() == LookUp(old(View()), res)
      ensures found.Some? <==> res.task in pending && pending[res.task].agent == res.agent
      ensures found.Some? ==> found.value in reports && found.value.res == res
    {
      if res.task !in pending {
        return None;
      }
      var p := pending[res.task];
      if res.agent != p.agent {
        return None;
      }
      found := Some(Report(res, p.call));
      reports := reports + {Report(res, p.call)};
    }

    /** The second half, after it: the first outcome stays. */
    method DepositReport(r: Report) returns (accepted: bool)
      modifies this`slots, this`reports
      ensures View() == Deposit(old(View()), r)
      ensures accepted <==> HasEmpty(old(slots), r.call)
    {
      accepted := r.call in slots && slots[r.call].None?;
      if accepted {
        slots := slots[r.call := Some(Reported(r.res))];
      }
      reports := reports - {r};
    }

    method FailEverything(error: string)
      modifies this`slots
      ensures View() == FailAll(old(View()), error)
    {
      var left := pending.Keys;
      ghost var seen: set<string> := {};
      while left != {}
        invariant left !! seen && left + seen == pending.Keys
        invariant slots == FilledFor(old(slots), pending, seen, error)
        decreases left
      {
        var t :| t in left;
        left := left - {t};
        FilledForAt(old(slots), pending, seen, t, error);
        hide FilledFor;
        var c := pending[t].call;
        if c in slots && slots[c].None? {
          slots := slots[c := Some(Failed(error))];
        }
        seen := seen + {t};
      }
      assert seen == pending.Keys;
    }
  }

  predicate SeenCall(pending: map<string, Pending>, seen: set<string>, call: nat) {
    exists t :: t in seen && t in pending && pending[t].call == call
  }

  /** The slots once the pending tasks seen have been failed. */
  function FilledFor(slots: map<nat, Option<Outcome>>, pending: map<string, Pending>, seen: set<string>,
                     error: string): map<nat, Option<Outcome>> {
    map c | c in slots :: if slots[c].None? && SeenCall(pending, seen, c) then Some(Failed(error)) else slots[c]
  }

  lemma FilledForAt(slots: map<nat, Option<Outcome>>, pending: map<string, Pending>, seen: set<string>, t: string,
                    error: string)
    requires t in pending
    ensures FilledFor(slots, pending, seen + {t}, error)
      == Put(FilledFor(slots, pending, seen, error), pending[t].call, Failed(error))
  {
    forall c ensures SeenCall(pending, seen + {t}, c) <==> SeenCall(pending, seen, c) || c == pending[t].call {
      if SeenCall(pending, seen, c) {
        var u :| u in seen && u in pending && pending[u].call == c;
        assert u in seen + {t};
      }
      if c == pending[t].call {
        assert t in seen + {t};
      }
    }
    hide SeenCall;
  }
}
