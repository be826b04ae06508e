/** The controller's external-check assignments: the record per agent, the bounded queue of each stream,
    the pushes an apply collected under the lock and performs after it, and the resync marks. */
module ExternalAssignments {

  const BUFFER: nat := 16

  datatype Spec = Spec(
    definition: string, name: string, kind: string, address: string, port: nat, checkType: string, params: string)

  type Assignment = seq<Spec>

  /** A send collected by apply: to every stream the agent had open at that moment. */
  datatype Push = Push(agent: string, specs: Assignment, chans: set<nat>)

  datatype State = State(
    record: map<string, Assignment>, resync: set<string>, subscribers: map<string, set<nat>>,
    queues: map<nat, seq<Assignment>>, sent: map<nat, Assignment>, pushes: seq<Push>)

  function Recorded(record: map<string, Assignment>, agent: string): Assignment {
    if agent in record then record[agent] else []
  }

  function Streams(subscribers: map<string, set<nat>>, agent: string): set<nat> {
    if agent in subscribers then subscribers[agent] else {}
  }

  // ---- one apply ----

  /** The record an apply leaves: what is desired, except for an unknown agent that held nothing. */
  function Kept(record: map<string, Assignment>, desired: map<string, Assignment>,
                unknown: set<string>): map<string, Assignment> {
    map a | a in desired && desired[a] != [] && (a in unknown ==> a in record) :: desired[a]
  }

  /** The agents an apply pushes to: the marked ones and those whose assignment changes, and no other. */
  ghost predicate Pushed(s: State, kept: map<string, Assignment>, agent: string) {
    agent in s.resync || Recorded(s.record, agent) != Recorded(kept, agent)
  }

  function PushFor(s: State, kept: map<string, Assignment>, agent: string): Push {
    Push(agent, Recorded(kept, agent), Streams(s.subscribers, agent))
  }

  ghost predicate IsBatch(s: State, desired: map<string, Assignment>, unknown: set<string>, batch: seq<Push>) {
    var kept := Kept(s.record, desired, unknown);
    && (forall i, j :: 0 <= i < j < |batch| ==> batch[i].agent != batch[j].agent)
    && (forall i :: 0 <= i < |batch| ==>
      Pushed(s, kept, batch[i].agent) && batch[i] == PushFor(s, kept, batch[i].agent))
    && (forall a :: Pushed(s, kept, a) ==> InBatch(batch, a))
  }

  ghost predicate InBatch(batch: seq<Push>, agent: string) {
    exists i :: 0 <= i < |batch| && batch[i].agent == agent
  }

  function Collect(s: State, desired: map<string, Assignment>, unknown: set<string>, batch: seq<Push>): State {
    s.(record := Kept(s.record, desired, unknown), resync := {}, pushes := s.pushes + batch)
  }

  predicate HasRoom(s: State, c: nat) {
    c in s.queues && |s.queues[c]| < BUFFER
  }

  /** The non-blocking sends of one push: full queues drop it. */
  function Queued(queues: map<nat, seq<Assignment>>, p: Push): map<nat, seq<Assignment>> {
    map c | c in queues :: if c in p.chans && |queues[c]| < BUFFER then queues[c] + [p.specs] else queues[c]
  }

  /** The agent is marked when it had streams and none took the push. */
  function Send(s: State, k: nat): State
    requires k < |s.pushes|
  {
    var p := s.pushes[k];
    s.(queues := Queued(s.queues, p),
       resync := if p.chans != {} && (forall c :: c in p.chans ==>
         !HasRoom(s, c)) then s.resync + {p.agent} else s.resync,
       pushes := s.pushes[..k] + s.pushes[k + 1..])
  }

  // ---- the streams ----

  datatype Event =
    | Applied(desired: map<string, Assignment>, unknown: set<string>, batch: seq<Push>)
    | Sent(k: nat)
    | Subscribed(agent: string, c: nat)
    | Initial(agent: string, c: nat)
    | Delivered(c: nat)
    | Closed(agent: string, c: nat)

  ghost predicate Enabled(s: State, e: Event) {
    match e
    case Applied(desired, unknown, batch) => IsBatch(s, desired, unknown, batch)
    case Sent(k) => k < |s.pushes|
    case Subscribed(agent, c) => c !in s.queues
    case Initial(agent, c) => c in Streams(s.subscribers, agent) && c !in s.sent
    case Delivered(c) => c in s.sent && c in s.queues && s.queues[c] != []
    case Closed(agent, c) => c in Streams(s.subscribers, agent)
  }

  function Next(s: State, e: Event): State
    requires e.Sent? ==> e.k < |s.pushes|
    requires e.Delivered? ==> e.c in s.queues && s.queues[e.c] != []
  {
    match e
    case Applied(desired, unknown, batch) => Collect(s, desired, unknown, batch)
    case Sent(k) => Send(s, k)
    case Subscribed(agent, c) =>
      s.(subscribers := s.subscribers[agent := Streams(s.subscribers, agent) + {c}],
         queues := s.queues[c := []], sent := s.sent - {c})
    case Initial(agent, c) => s.(sent := s.sent[c := Recorded(s.record, agent)])
    case Delivered(c) => s.(sent := s.sent[c := s.queues[c][0]], queues := s.queues[c := s.queues[c][1..]])
    case Closed(agent, c) =>
      var left := Streams(s.subscribers, agent) - {c};
      s.(subscribers := if left == {} then s.subscribers - {agent} else s.subscribers[agent := left])
  }

  // ---- the invariant ----

  /** What the stream was last sent, or has last in its queue, is the record. */
  ghost predicate Current(s: State, agent: string, c: nat)
    requires c in s.queues
  {
    if s.queues[c] != [] then s.queues[c][|s.queues[c]| - 1] == Recorded(s.record, agent)
    else c in s.sent ==> s.sent[c] == Recorded(s.record, agent)
  }

  ghost predicate Latest(pushes: seq<Push>, k: int) {
    0 <= k < |pushes| && forall j :: k < j < |pushes| ==> pushes[j].agent != pushes[k].agent
  }

  /** The newest outstanding push of the agent goes to this stream. */
  ghost predicate Covered(pushes: seq<Push>, agent: string, c: nat) {
    exists k :: Latest(pushes, k) && pushes[k].agent == agent && c in pushes[k].chans
  }

  ghost predicate StreamsOk(s: State) {
    && (forall a, c :: c in Streams(s.subscribers, a) ==> c in s.queues)
    && (forall a, b, c :: c in Streams(s.subscribers, a) && c in Streams(s.subscribers, b) ==> a == b)
    && (forall c :: c in s.queues ==> |s.queues[c]| <= BUFFER)
    && (forall a :: a in s.record ==> s.record[a] != [])
  }

  /** A newer push goes to every open stream an older one of the same agent goes to. */
  ghost predicate Nested(s: State) {
    forall j, k :: 0 <= j < k < |s.pushes| && s.pushes[j].agent == s.pushes[k].agent ==>
      s.pushes[j].chans * Streams(s.subscribers, s.pushes[j].agent) <= s.pushes[k].chans
  }

  ghost predicate PushesOk(s: State) {
    && (forall k, b, c :: 0 <= k < |s.pushes| && c in s.pushes[k].chans && c in Streams(s.subscribers, b) ==>
      s.pushes[k].agent == b)
    && (forall k, c :: 0 <= k < |s.pushes| && c in s.pushes[k].chans ==> c in s.queues)
    && (forall k :: Latest(s.pushes, k) ==> s.pushes[k].specs == Recorded(s.record, s.pushes[k].agent))
    && Nested(s)
  }

  ghost predicate Agrees(s: State, a: string, c: nat)
    requires c in s.queues
  {
    Current(s, a, c) || a in s.resync || Covered(s.pushes, a, c)
  }

  ghost predicate Agreement(s: State)
    requires StreamsOk(s)
  {
    forall a, c :: c in Streams(s.subscribers, a) ==> Agrees(s, a, c)
  }

  ghost predicate Inv(s: State) {
    StreamsOk(s) && PushesOk(s) && Agreement(s)
  }

  /** Push j is the next newest of push k's agent. */
  ghost predicate Previous(pushes: seq<Push>, k: int, j: int) {
    && 0 <= j < k < |pushes| && pushes[j].agent == pushes[k].agent
    && forall i :: j < i < k ==> pushes[i].agent != pushes[k].agent
  }

  /** The newest push of an agent goes last, or the one it overtakes says the same. */
  ghost predicate InTurn(s: State, k: nat)
    requires k < |s.pushes|
  {
    Latest(s.pushes, k) ==> forall j :: Previous(s.pushes, k, j) ==> s.pushes[j].specs == s.pushes[k].specs
  }

  /** The push overtaken goes to this stream too. */
  ghost predicate StillDue(pushes: seq<Push>, k: nat, c: nat) {
    exists j :: Previous(pushes, k, j) && c in pushes[j].chans
  }

  /** When one stream of the agent takes the push, no other one misses it: all have room, or a full one
      already ends with these specs, or a push is still to come. It only matters for the newest push of
      an unmarked agent. */
  ghost predicate NoHiddenDrop(s: State, k: nat)
    requires k < |s.pushes|
  {
    var p := s.pushes[k];
    Latest(s.pushes, k) && p.agent !in s.resync && (exists c :: c in p.chans && HasRoom(s, c)) ==>
      forall c :: c in p.chans * Streams(s.subscribers, p.agent) ==>
        HasRoom(s, c) || EndsWith(s, c, p.specs) || StillDue(s.pushes, k, c)
  }

  ghost predicate Harmless(s: State, k: nat)
    requires k < |s.pushes|
  {
    InTurn(s, k) && NoHiddenDrop(s, k)
  }

  ghost predicate EndsWith(s: State, c: nat, specs: Assignment) {
    c in s.queues && s.queues[c] != [] && s.queues[c][|s.queues[c]| - 1] == specs
  }

  // ---- collecting ----

  lemma BatchIsLatest(s: State, desired: map<string, Assignment>, unknown: set<string>, batch: seq<Push>, k: int)
    requires IsBatch(s, desired, unknown, batch) && Latest(s.pushes + batch, k)
    ensures k >= |s.pushes| || (Latest(s.pushes, k) && !InBatch(batch, s.pushes[k].agent))
  {
    var all := s.pushes + batch;
    if k < |s.pushes| {
      forall i | 0 <= i < |batch| ensures batch[i].agent != s.pushes[k].agent {
        assert all[|s.pushes| + i] == batch[i];
      }
      forall j | k < j < |s.pushes| ensures s.pushes[j].agent != s.pushes[k].agent {
        assert all[j] == s.pushes[j];
      }
    }
  }

  lemma InBatchCovers(s: State, desired: map<string, Assignment>, unknown: set<string>, batch: seq<Push>, a: string,
                      c: nat)
    requires IsBatch(s, desired, unknown, batch) && InBatch(batch, a) && c in Streams(s.subscribers, a)
    ensures Covered(s.pushes + batch, a, c)
  {
    var i :| 0 <= i < |batch| && batch[i].agent == a;
    assert Latest(s.pushes + batch, |s.pushes| + i);
  }

  lemma OldCovers(s: State, batch: seq<Push>, a: string, c: nat)
    requires Covered(s.pushes, a, c) && !InBatch(batch, a)
    ensures Covered(s.pushes + batch, a, c)
  {
    var k :| Latest(s.pushes, k) && s.pushes[k].agent == a && c in s.pushes[k].chans;
    assert Latest(s.pushes + batch, k);
  }

  lemma CollectKeepsAgreement(s: State, desired: map<string, Assignment>, unknown: set<string>, batch: seq<Push>,
                              a: string, c: nat)
    requires Inv(s) && IsBatch(s, desired, unknown, batch) && c in Streams(s.subscribers, a)
    ensures Agrees(Collect(s, desired, unknown, batch), a, c)
  {
    if InBatch(batch, a) {
      InBatchCovers(s, desired, unknown, batch, a, c);
    } else {
      assert !Pushed(s, Kept(s.record, desired, unknown), a);
      assert Agrees(s, a, c);
      if Covered(s.pushes, a, c) {
        OldCovers(s, batch, a, c);
      }
    }
  }

  lemma CollectKeepsPushes(s: State, desired: map<string, Assignment>, unknown: set<string>, batch: seq<Push>)
    requires Inv(s) && IsBatch(s, desired, unknown, batch)
    ensures PushesOk(Collect(s, desired, unknown, batch))
  {
    var t := Collect(s, desired, unknown, batch);
    forall k | Latest(t.pushes, k) ensures t.pushes[k].specs == Recorded(t.record, t.pushes[k].agent) {
      BatchIsLatest(s, desired, unknown, batch, k);
      assert k < |s.pushes| ==> !Pushed(s, t.record, s.pushes[k].agent);
    }
    CollectKeepsNested(s, desired, unknown, batch);
    CollectKeepsChans(s, desired, unknown, batch);
  }

  lemma CollectKeepsNested(s: State, desired: map<string, Assignment>, unknown: set<string>, batch: seq<Push>)
    requires Nested(s) && IsBatch(s, desired, unknown, batch)
    ensures Nested(Collect(s, desired, unknown, batch))
  {
    hide Latest, Kept;
  }

  lemma CollectKeepsChans(s: State, desired: map<string, Assignment>, unknown: set<string>, batch: seq<Push>)
    requires StreamsOk(s) && PushesOk(s) && IsBatch(s, desired, unknown, batch)
    ensures var t := Collect(s, desired, unknown, batch);
      && (forall k, b, c :: 0 <= k < |t.pushes| && c in t.pushes[k].chans && c in Streams(t.subscribers, b) ==>
        t.pushes[k].agent == b)
      && (forall k, c :: 0 <= k < |t.pushes| && c in t.pushes[k].chans ==> c in t.queues)
  {
    hide Latest, Kept, Nested, Recorded;
  }

  lemma CollectKeepsInv(s: State, desired: map<string, Assignment>, unknown: set<string>, batch: seq<Push>)
    requires Inv(s) && IsBatch(s, desired, unknown, batch)
    ensures Inv(Collect(s, desired, unknown, batch))
  {
    var t := Collect(s, desired, unknown, batch);
    CollectKeepsPushes(s, desired, unknown, batch);
    assert StreamsOk(t);
    hide PushesOk, IsBatch, Agrees;
    forall a, c | c in Streams(t.subscribers, a) ensures Agrees(t, a, c) {
      CollectKeepsAgreement(s, desired, unknown, batch, a, c);
    }
  }

  // ---- sending ----

  /** Where push j of the rest stood before push k was taken out. */
  function Before(k: nat, j: int): int {
    if j < k then j else j + 1
  }

  lemma RestAt(pushes: seq<Push>, k: nat, j: int)
    requires k < |pushes| && 0 <= j < |pushes| - 1
    ensures (pushes[..k] + pushes[k + 1..])[j] == pushes[Before(k, j)]
  {
  }

  /** What is newest among the rest was newest before, or is what push k overtook. */
  lemma LatestOfRest(pushes: seq<Push>, k: nat, j: int)
    requires k < |pushes| && Latest(pushes[..k] + pushes[k + 1..], j)
    ensures Latest(pushes, Before(k, j)) || (Latest(pushes, k) && Previous(pushes, k, Before(k, j)))
    ensures pushes[Before(k, j)].agent == pushes[k].agent && Latest(pushes, k) ==> Previous(pushes, k, Before(k, j))
  {
    var rest := pushes[..k] + pushes[k + 1..];
    RestAt(pushes, k, j);
    forall i | Before(k, j) < i < |pushes| && i != k ensures pushes[i].agent != pushes[Before(k, j)].agent {
      RestAt(pushes, k, if i < k then i else i - 1);
      assert rest[if i < k then i else i - 1].agent != rest[j].agent;
    }
  }

  lemma PreviousIsNext(pushes: seq<Push>, k: nat, j: int)
    requires Latest(pushes, k) && Previous(pushes, k, j)
    ensures Latest(pushes[..k] + pushes[k + 1..], j)
  {
    var rest := pushes[..k] + pushes[k + 1..];
    RestAt(pushes, k, j);
    forall i | j < i < |rest| ensures rest[i].agent != rest[j].agent {
      RestAt(pushes, k, i);
    }
  }

  lemma LatestStays(pushes: seq<Push>, k: nat, j: int)
    requires k < |pushes| && Latest(pushes, j) && j != k
    ensures Latest(pushes[..k] + pushes[k + 1..], if j < k then j else j - 1)
  {
    var rest := pushes[..k] + pushes[k + 1..];
    var m := if j < k then j else j - 1;
    RestAt(pushes, k, m);
    forall i | m < i < |rest| ensures rest[i].agent != rest[m].agent {
      RestAt(pushes, k, i);
    }
  }

  lemma CoverStays(s: State, k: nat, a: string, c: nat)
    requires k < |s.pushes| && Covered(s.pushes, a, c) && !(Latest(s.pushes, k) && s.pushes[k].agent == a)
    ensures Covered(Send(s, k).pushes, a, c)
  {
    var j :| Latest(s.pushes, j) && s.pushes[j].agent == a && c in s.pushes[j].chans;
    LatestStays(s.pushes, k, j);
    RestAt(s.pushes, k, if j < k then j else j - 1);
  }

  lemma {:induction false} LatestExists(pushes: seq<Push>, k: nat)
    requires k < |pushes|
    ensures exists j :: k <= j && Latest(pushes, j) && pushes[j].agent == pushes[k].agent
    decreases |pushes| - k
  {
    if !Latest(pushes, k) {
      var i :| k < i < |pushes| && pushes[i].agent == pushes[k].agent;
      LatestExists(pushes, i);
    }
  }

  lemma NewerCovers(s: State, k: nat, c: nat)
    requires k < |s.pushes| && Nested(s) && !Latest(s.pushes, k) && c in s.pushes[k].chans
    requires c in Streams(s.subscribers, s.pushes[k].agent)
    ensures Covered(s.pushes, s.pushes[k].agent, c)
  {
    LatestExists(s.pushes, k);
    var j :| k <= j && Latest(s.pushes, j) && s.pushes[j].agent == s.pushes[k].agent;
  }

  lemma SendKeepsLatest(s: State, k: nat, j: int)
    requires PushesOk(s) && k < |s.pushes| && InTurn(s, k) && Latest(Send(s, k).pushes, j)
    ensures var t := Send(s, k); t.pushes[j].specs == Recorded(t.record, t.pushes[j].agent)
  {
    LatestOfRest(s.pushes, k, j);
    RestAt(s.pushes, k, j);
  }

  lemma SendKeepsPushes(s: State, k: nat)
    requires PushesOk(s) && k < |s.pushes| && InTurn(s, k)
    ensures PushesOk(Send(s, k))
  {
    var t := Send(s, k);
    forall j | 0 <= j < |t.pushes| ensures t.pushes[j] == s.pushes[Before(k, j)] {
      RestAt(s.pushes, k, j);
    }
    assert t.queues.Keys == s.queues.Keys;
    forall j | Latest(t.pushes, j) ensures t.pushes[j].specs == Recorded(t.record, t.pushes[j].agent) {
      SendKeepsLatest(s, k, j);
    }
    SendKeepsNested(s, k);
  }

  lemma SendKeepsNested(s: State, k: nat)
    requires Nested(s) && k < |s.pushes|
    ensures Nested(Send(s, k))
  {
    var t := Send(s, k);
    forall i, j | 0 <= i < j < |t.pushes| && t.pushes[i].agent == t.pushes[j].agent
      ensures t.pushes[i].chans * Streams(t.subscribers, t.pushes[i].agent) <= t.pushes[j].chans
    {
      RestAt(s.pushes, k, i);
      RestAt(s.pushes, k, j);
    }
  }

  lemma StillDueCovers(s: State, k: nat, c: nat)
    requires k < |s.pushes| && Latest(s.pushes, k) && StillDue(s.pushes, k, c)
    ensures Covered(Send(s, k).pushes, s.pushes[k].agent, c)
  {
    var j :| Previous(s.pushes, k, j) && c in s.pushes[j].chans;
    PreviousIsNext(s.pushes, k, j);
    RestAt(s.pushes, k, j);
  }

  /** A stream that is not the newest push's, or takes it, or need not. */
  lemma SendKeepsAgrees(s: State, k: nat, a: string, c: nat)
    requires Inv(s) && k < |s.pushes| && c in Streams(s.subscribers, a) && c in Send(s, k).queues
    requires a == s.pushes[k].agent && Latest(s.pushes, k) && c in s.pushes[k].chans ==>
      HasRoom(s, c) || EndsWith(s, c, s.pushes[k].specs) || StillDue(s.pushes, k, c) || a in Send(s, k).resync
    ensures Agrees(Send(s, k), a, c)
  {
    var p := s.pushes[k];
    assert Agrees(s, a, c);
    if a == p.agent && Latest(s.pushes, k) {
      if c !in p.chans {
        assert !Covered(s.pushes, a, c) by { OnlyOneLatest(s.pushes, k, c); }
      } else if StillDue(s.pushes, k, c) {
        StillDueCovers(s, k, c);
      }
    } else if a == p.agent && c in p.chans {
      NewerCovers(s, k, c);
      CoverStays(s, k, a, c);
    } else {
      if Covered(s.pushes, a, c) {
        CoverStays(s, k, a, c);
      }
    }
  }

  lemma OnlyOneLatest(pushes: seq<Push>, k: nat, c: nat)
    requires Latest(pushes, k) && c !in pushes[k].chans
    ensures !Covered(pushes, pushes[k].agent, c)
  {
  }

  lemma SendKeepsStreams(s: State, k: nat)
    requires StreamsOk(s) && k < |s.pushes|
    ensures StreamsOk(Send(s, k))
  {
    assert Send(s, k).queues.Keys == s.queues.Keys;
  }

  lemma SendKeepsInv(s: State, k: nat)
    requires Inv(s) && k < |s.pushes| && Harmless(s, k)
    ensures Inv(Send(s, k))
  {
    var p, t := s.pushes[k], Send(s, k);
    SendKeepsPushes(s, k);
    SendKeepsStreams(s, k);
    hide PushesOk, StreamsOk, Agrees, Latest, StillDue, EndsWith;
    forall a, c | c in Streams(t.subscribers, a) ensures Agrees(t, a, c) {
      if a == p.agent && Latest(s.pushes, k) && c in p.chans && p.agent !in s.resync {
        if exists d :: d in p.chans && HasRoom(s, d) {
          assert c in p.chans * Streams(s.subscribers, p.agent);
        }
      }
      SendKeepsAgrees(s, k, a, c);
    }
  }

  /** Once the newest push of an agent is gone, only what it overtook covers a stream. */
  lemma OnlyPreviousCovers(s: State, k: nat, c: nat)
    requires k < |s.pushes| && Latest(s.pushes, k) && !StillDue(s.pushes, k, c)
    ensures !Covered(Send(s, k).pushes, s.pushes[k].agent, c)
  {
    var t := Send(s, k);
    forall j | Latest(t.pushes, j) && t.pushes[j].agent == s.pushes[k].agent ensures c !in t.pushes[j].chans {
      RestAt(s.pushes, k, j);
      LatestOfRest(s.pushes, k, j);
    }
  }

  /** A dropped push that another stream took leaves its stream behind for good. */
  lemma HiddenDropBreaks(s: State, k: nat)
    requires Inv(s) && k < |s.pushes| && !NoHiddenDrop(s, k)
    ensures !Inv(Send(s, k))
  {
    var p, t := s.pushes[k], Send(s, k);
    var c :| c in p.chans * Streams(s.subscribers, p.agent)
      && !(HasRoom(s, c) || EndsWith(s, c, p.specs) || StillDue(s.pushes, k, c));
    SendKeepsStreams(s, k);
    OnlyPreviousCovers(s, k, c);
    assert p.specs == Recorded(s.record, p.agent);
    hide Latest, StillDue, PushesOk, Covered;
    assert t.queues[c] == s.queues[c] && t.resync == s.resync;
    assert !Agrees(t, p.agent, c);
  }

  /** The newest push sent ahead of one that says otherwise: the older one will end up last. */
  lemma OvertakingBreaks(s: State, k: nat)
    requires Inv(s) && k < |s.pushes| && !InTurn(s, k)
    ensures !Inv(Send(s, k))
  {
    var j :| Previous(s.pushes, k, j) && s.pushes[j].specs != s.pushes[k].specs;
    PreviousIsNext(s.pushes, k, j);
    RestAt(s.pushes, k, j);
    var t := Send(s, k);
    assert Latest(t.pushes, j) && t.pushes[j].specs != Recorded(t.record, t.pushes[j].agent);
  }

  /** A send keeps the invariant if and only if it is harmless: the newest push of the agent does not
      overtake one that says otherwise, and no stream misses it unnoticed. */
  lemma SendIsSafeIff(s: State, k: nat)
    requires Inv(s) && k < |s.pushes|
    ensures Inv(Send(s, k)) <==> Harmless(s, k)
  {
    if Harmless(s, k) {
      SendKeepsInv(s, k);
    } else if !InTurn(s, k) {
      OvertakingBreaks(s, k);
    } else {
      HiddenDropBreaks(s, k);
    }
  }

  /** One stream, one verdict. */
  lemma OneStreamHidesNothing(s: State, k: nat)
    requires k < |s.pushes| && forall c, d :: c in s.pushes[k].chans && d in s.pushes[k].chans ==> c == d
    ensures NoHiddenDrop(s, k)
  {
  }

  // ---- the streams' own steps ----

  lemma SubscribedKeepsInv(s: State, agent: string, c: nat)
    requires Inv(s) && c !in s.queues
    ensures Inv(Next(s, Subscribed(agent, c)))
  {
    var t := Next(s, Subscribed(agent, c));
    assert Streams(t.subscribers, agent) == Streams(s.subscribers, agent) + {c};
    assert forall b :: b != agent ==> Streams(t.subscribers, b) == Streams(s.subscribers, b);
    assert StreamsOk(t);
    SubscribedKeepsPushes(s, agent, c);
    hide PushesOk, Covered;
    forall a, d | d in Streams(t.subscribers, a) ensures Agrees(t, a, d) {
      assert d == c || Agrees(s, a, d);
    }
  }

  lemma SubscribedKeepsPushes(s: State, agent: string, c: nat)
    requires Inv(s) && c !in s.queues
    ensures PushesOk(Next(s, Subscribed(agent, c)))
  {
    var t := Next(s, Subscribed(agent, c));
    SubscribedKeepsNested(s, agent, c);
    assert t.pushes == s.pushes && t.record == s.record && t.queues.Keys == s.queues.Keys + {c};
    assert forall b :: Streams(t.subscribers, b) <= Streams(s.subscribers, b) + {c};
    hide Agrees, Nested, Latest, Recorded, Streams;
    forall k, b, d | 0 <= k < |t.pushes| && d in t.pushes[k].chans && d in Streams(t.subscribers, b)
      ensures t.pushes[k].agent == b
    {
      assert d in s.queues;
    }
  }

  lemma SubscribedKeepsNested(s: State, agent: string, c: nat)
    requires Inv(s) && c !in s.queues
    ensures Nested(Next(s, Subscribed(agent, c)))
  {
    hide Latest, Agrees, Recorded;
  }

  lemma InitialKeepsInv(s: State, agent: string, c: nat)
    requires Inv(s) && c in Streams(s.subscribers, agent) && c !in s.sent
    ensures Inv(Next(s, Initial(agent, c)))
  {
    var t := Next(s, Initial(agent, c));
    assert PushesOk(t) && StreamsOk(t);
    hide PushesOk;
    forall a, d | d in Streams(t.subscribers, a) ensures Agrees(t, a, d) {
      assert Agrees(s, a, d);
    }
  }

  lemma DeliveredKeepsInv(s: State, c: nat)
    requires Inv(s) && c in s.queues && s.queues[c] != []
    ensures Inv(Next(s, Delivered(c)))
  {
    var t := Next(s, Delivered(c));
    assert PushesOk(t) && StreamsOk(t);
    hide PushesOk;
    forall a, d | d in Streams(t.subscribers, a) ensures Agrees(t, a, d) {
      assert Agrees(s, a, d);
    }
  }

  lemma ClosedKeepsInv(s: State, agent: string, c: nat)
    requires Inv(s) && c in Streams(s.subscribers, agent)
    ensures Inv(Next(s, Closed(agent, c)))
  {
    var t := Next(s, Closed(agent, c));
    assert forall b :: Streams(t.subscribers, b) <= Streams(s.subscribers, b);
    assert StreamsOk(t);
    assert Nested(t) by {
      forall j, k | 0 <= j < k < |t.pushes| && t.pushes[j].agent == t.pushes[k].agent
        ensures t.pushes[j].chans * Streams(t.subscribers, t.pushes[j].agent) <= t.pushes[k].chans
      {
        assert s.pushes[j].chans * Streams(s.subscribers, s.pushes[j].agent) <= s.pushes[k].chans;
      }
    }
    assert PushesOk(t);
    hide PushesOk;
    forall a, d | d in Streams(t.subscribers, a) ensures Agrees(t, a, d) {
      assert Agrees(s, a, d);
    }
  }

  lemma NextKeepsInv(s: State, e: Event)
    requires Inv(s) && Enabled(s, e) && (e.Sent? ==> Harmless(s, e.k))
    ensures Inv(Next(s, e))
  {
    hide Inv;
    match e
    case Applied(desired, unknown, batch) => CollectKeepsInv(s, desired, unknown, batch);
    case Sent(k) => SendKeepsInv(s, k);
    case Subscribed(agent, c) => SubscribedKeepsInv(s, agent, c);
    case Initial(agent, c) => InitialKeepsInv(s, agent, c);
    case Delivered(c) => DeliveredKeepsInv(s, c);
    case Closed(agent, c) => ClosedKeepsInv(s, agent, c);
  }

  // ---- runs ----

  const EMPTY: State := State(map[], {}, map[], map[], map[], [])

  ghost predicate IsRun(events: seq<Event>, states: seq<State>) {
    && |states| == |events| + 1 && states[0] == EMPTY
    && forall i :: 0 <= i < |events| ==> Enabled(states[i], events[i]) && states[i + 1] == Next(states[i], events[i])
  }

  /** The streams opened and not closed since. */
  ghost function Open(events: seq<Event>, n: nat, agent: string): set<nat>
    requires n <= |events|
  {
    if n == 0 then {}
    else
      var before := Open(events, n - 1, agent);
      match events[n - 1]
      case Subscribed(a, c) => if a == agent then before + {c} else before
      case Closed(a, c) => if a == agent then before - {c} else before
      case _ => before
  }

  /** In every run the manager knows exactly the open streams. */
  lemma {:induction false} EveryRunKnowsItsStreams(events: seq<Event>, states: seq<State>, n: nat, agent: string)
    requires IsRun(events, states) && n < |states|
    ensures Streams(states[n].subscribers, agent) == Open(events, n, agent)
    decreases n
  {
    if n > 0 {
      EveryRunKnowsItsStreams(events, states, n - 1, agent);
      RunStep(events, states, n - 1);
      StreamStep(states[n - 1], events[n - 1], agent);
      hide IsRun, Enabled, Next;
    }
  }

  lemma StreamStep(s: State, e: Event, agent: string)
    requires Enabled(s, e)
    ensures Streams(Next(s, e).subscribers, agent) ==
      if e.Subscribed? && e.agent == agent then Streams(s.subscribers, agent) + {e.c}
      else if e.Closed? && e.agent == agent then Streams(s.subscribers, agent) - {e.c}
      else Streams(s.subscribers, agent)
  {
    hide IsBatch;
  }

  lemma RunStep(events: seq<Event>, states: seq<State>, k: nat)
    requires IsRun(events, states) && k + 1 < |states|
    ensures k < |events| && Enabled(states[k], events[k]) && states[k + 1] == Next(states[k], events[k])
  {
  }

  /** The sends among the first n events do no harm, or keep their turn. */
  ghost predicate AllHarmless(events: seq<Event>, states: seq<State>, n: nat) {
    forall i :: 0 <= i < n && i < |events| && i < |states| && events[i].Sent? ==>
      events[i].k < |states[i].pushes| && Harmless(states[i], events[i].k)
  }

  ghost predicate AllInTurn(events: seq<Event>, states: seq<State>, n: nat) {
    forall i :: 0 <= i < n && i < |events| && i < |states| && events[i].Sent? ==>
      events[i].k < |states[i].pushes| && InTurn(states[i], events[i].k)
  }

  lemma {:induction false} EveryRunAgrees(events: seq<Event>, states: seq<State>, n: nat)
    requires IsRun(events, states) && n < |states| && AllHarmless(events, states, n)
    ensures Inv(states[n])
    decreases n
  {
    if n == 0 {
      assert Inv(EMPTY);
    } else {
      EveryRunAgrees(events, states, n - 1);
      RunStep(events, states, n - 1);
      hide IsRun, Inv, Enabled, Next;
      NextKeepsInv(states[n - 1], events[n - 1]);
    }
  }

  /** At most one stream per agent, open or still to be pushed to. */
  ghost predicate Single(s: State) {
    && (forall a, c, d :: c in Streams(s.subscribers, a) && d in Streams(s.subscribers, a) ==> c == d)
    && forall k, c, d :: 0 <= k < |s.pushes| && c in s.pushes[k].chans && d in s.pushes[k].chans ==> c == d
  }

  lemma NextKeepsSingle(s: State, e: Event)
    requires Single(s) && Enabled(s, e) && (e.Subscribed? ==> Streams(s.subscribers, e.agent) == {})
    ensures Single(Next(s, e))
  {
    var t := Next(s, e);
    if e.Sent? {
      forall j | 0 <= j < |t.pushes| ensures t.pushes[j] in s.pushes {
        RestAt(s.pushes, e.k, j);
      }
    }
    hide IsBatch;
    if e.Applied? {
      BatchIsSingle(s, e.desired, e.unknown, e.batch);
    }
    assert forall a ::
      Streams(t.subscribers, a) <= Streams(s.subscribers, a) + (if e.Subscribed? && a == e.agent then {e.c} else {});
  }

  lemma BatchIsSingle(s: State, desired: map<string, Assignment>, unknown: set<string>, batch: seq<Push>)
    requires Single(s) && IsBatch(s, desired, unknown, batch)
    ensures Single(Collect(s, desired, unknown, batch))
  {
  }

  lemma {:induction false} SingleStreamRun(events: seq<Event>, states: seq<State>, n: nat)
    requires IsRun(events, states) && n < |states| && AllInTurn(events, states, n) && OneStreamEach(events, states, n)
    ensures Single(states[n]) && AllHarmless(events, states, n)
    decreases n
  {
    if n > 0 {
      SingleStreamRun(events, states, n - 1);
      RunStep(events, states, n - 1);
      hide IsRun, Single, Next, InTurn, NoHiddenDrop;
      NextKeepsSingle(states[n - 1], events[n - 1]);
      if events[n - 1].Sent? {
        SingleHidesNothing(states[n - 1], events[n - 1].k);
      }
    }
  }

  /** An agent subscribes only when it has no stream open. */
  ghost predicate OneStreamEach(events: seq<Event>, states: seq<State>, n: nat) {
    forall i :: 0 <= i < n && i < |events| && i < |states| && events[i].Subscribed? ==>
      Streams(states[i].subscribers, events[i].agent) == {}
  }

  lemma SingleHidesNothing(s: State, k: nat)
    requires Single(s) && k < |s.pushes|
    ensures NoHiddenDrop(s, k)
  {
    OneStreamHidesNothing(s, k);
  }

  /** With one stream per agent, at every point: what a stream was last sent or has last queued is the
      record, or its agent is marked, or the push that will say so is still to be sent to it. */
  lemma OneStreamAlwaysAgrees(events: seq<Event>, states: seq<State>, n: nat, a: string, c: nat)
    requires IsRun(events, states) && n < |states| && c in Streams(states[n].subscribers, a)
    requires AllInTurn(events, states, n) && OneStreamEach(events, states, n)
    ensures c in states[n].queues
    ensures Current(states[n], a, c) || a in states[n].resync || Covered(states[n].pushes, a, c)
  {
    SingleStreamRun(events, states, n);
    EveryRunAgrees(events, states, n);
    hide IsRun;
    assert Agrees(states[n], a, c);
  }

  /** At most one push per agent is outstanding. */
  ghost predicate OnePush(pushes: seq<Push>) {
    forall i, j :: 0 <= i < j < |pushes| ==> pushes[i].agent != pushes[j].agent
  }

  lemma NextKeepsOnePush(s: State, e: Event)
    requires OnePush(s.pushes) && Enabled(s, e) && (e.Applied? ==> s.pushes == [])
    ensures OnePush(Next(s, e).pushes)
  {
    var t := Next(s, e);
    if e.Sent? {
      forall j | 0 <= j < |t.pushes| ensures t.pushes[j] == s.pushes[Before(e.k, j)] {
        RestAt(s.pushes, e.k, j);
      }
    }
    hide Kept, Recorded, Streams, Pushed;
  }

  lemma RunStart(events: seq<Event>, states: seq<State>)
    requires IsRun(events, states)
    ensures states[0] == EMPTY
  {
  }

  lemma OnePushIsInTurn(s: State, k: nat)
    requires OnePush(s.pushes) && k < |s.pushes|
    ensures InTurn(s, k)
  {
  }

  /** Applies that do not overlap keep every push in turn. */
  lemma {:induction false} SerialAppliesKeepTurn(events: seq<Event>, states: seq<State>, n: nat)
    requires IsRun(events, states) && n < |states|
    requires forall i :: 0 <= i < n && i < |events| && events[i].Applied? ==> states[i].pushes == []
    ensures OnePush(states[n].pushes) && AllInTurn(events, states, n)
    decreases n
  {
    hide IsRun, Next, InTurn, IsBatch;
    if n == 0 {
      RunStart(events, states);
    } else {
      SerialAppliesKeepTurn(events, states, n - 1);
      RunStep(events, states, n - 1);
      NextKeepsOnePush(states[n - 1], events[n - 1]);
      if events[n - 1].Sent? {
        OnePushIsInTurn(states[n - 1], events[n - 1].k);
      }
    }
  }

  // ---- applying again ----

  lemma {:induction false} RecordStays(events: seq<Event>, states: seq<State>, i: nat, j: nat)
    requires IsRun(events, states) && i <= j < |states|
    requires forall k :: i <= k < j && k < |events| ==> !events[k].Applied?
    ensures states[j].record == states[i].record
    decreases j
  {
    hide IsRun, Enabled;
    if i < j {
      RunStep(events, states, j - 1);
      RecordStays(events, states, i, j - 1);
    }
  }

  /** The same desired state again, with no mark left, pushes nothing. */
  lemma ReapplyPushesNothing(events: seq<Event>, states: seq<State>, i: nat, j: nat)
    requires IsRun(events, states) && i < j < |events| && events[i].Applied? && events[j].Applied?
    requires events[j].desired == events[i].desired && events[j].unknown == events[i].unknown && states[j].resync == {}
    requires forall k :: i < k < j ==> !events[k].Applied?
    ensures events[j].batch == [] && states[j + 1] == states[j]
  {
    RunStep(events, states, i);
    RunStep(events, states, j);
    RecordStays(events, states, i + 1, j);
    hide IsRun;
    KeptAgain(states[i].record, events[i].desired, events[i].unknown);
    SameRecordPushesNothing(states[j], events[j].desired, events[j].unknown, events[j].batch);
  }

  lemma KeptAgain(record: map<string, Assignment>, desired: map<string, Assignment>, unknown: set<string>)
    ensures Kept(Kept(record, desired, unknown), desired, unknown) == Kept(record, desired, unknown)
  {
  }

  lemma SameRecordPushesNothing(s: State, desired: map<string, Assignment>, unknown: set<string>, batch: seq<Push>)
    requires IsBatch(s, desired, unknown, batch) && s.resync == {} && Kept(s.record, desired, unknown) == s.record
    ensures batch == [] && Collect(s, desired, unknown, batch) == s
  {
    assert |batch| > 0 ==> Pushed(s, s.record, batch[0].agent);
  }

  // ---- what the conditions are for ----

  ghost predicate Reachable(s: State) {
    exists events, states :: IsRun(events, states) && states[|states| - 1] == s
  }

  lemma ReachNext(s: State, e: Event)
    requires Reachable(s) && Enabled(s, e)
    ensures Reachable(Next(s, e))
  {
    hide IsBatch, Next;
    var events, states :| IsRun(events, states) && states[|states| - 1] == s;
    var more, longer := events + [e], states + [Next(s, e)];
    forall i | 0 <= i < |more| ensures Enabled(longer[i], more[i]) && longer[i + 1] == Next(longer[i], more[i]) {
      if i < |events| {
        assert longer[i] == states[i] && longer[i + 1] == states[i + 1] && more[i] == events[i];
      }
    }
    assert IsRun(more, longer) && longer[|longer| - 1] == Next(s, e);
  }

  lemma StartIsReached()
    ensures Reachable(EMPTY)
  {
    assert IsRun([], [EMPTY]) && [EMPTY][|[EMPTY]| - 1] == EMPTY;
  }

  /** An apply that gives the only agent other specs collects one push. */
  lemma OneAgentBatch(s: State, specs: Assignment)
    requires specs != [] && s.record.Keys <= {"a"} && s.resync == {} && Recorded(s.record, "a") != specs
    ensures IsBatch(s, map["a" := specs], {}, [Push("a", specs, Streams(s.subscribers, "a"))])
    ensures Kept(s.record, map["a" := specs], {}) == map["a" := specs]
  {
    var kept := Kept(s.record, map["a" := specs], {});
    assert kept == map["a" := specs];
    var batch := [Push("a", specs, Streams(s.subscribers, "a"))];
    hide Kept;
    forall a | Pushed(s, kept, a) ensures InBatch(batch, a) {
      assert a == "a" && batch[0].agent == a;
    }
  }

  // ---- two streams ----

  /** The two assignments take turns; before the first there is none. */
  function Turn(x: Assignment, y: Assignment, i: nat): Assignment {
    if i == 0 then [] else if i % 2 == 1 then x else y
  }

  function Backlog(x: Assignment, y: Assignment, i: nat): seq<Assignment> {
    if i == 0 then [] else Backlog(x, y, i - 1) + [Turn(x, y, i)]
  }

  lemma {:induction false} BacklogSize(x: Assignment, y: Assignment, i: nat)
    ensures |Backlog(x, y, i)| == i
  {
    if i > 0 {
      BacklogSize(x, y, i - 1);
    }
  }

  /** Stream 1 reads along, stream 0 does not: after i applies it has i assignments queued. */
  function Stalled(x: Assignment, y: Assignment, i: nat): State {
    State(if i == 0 then map[] else map["a" := Turn(x, y, i)], {}, map["a" := {0, 1}],
          map[0 := Backlog(x, y, i), 1 := []], map[0 := [], 1 := Turn(x, y, i)], [])
  }

  /** The same with one more apply collected and not sent. */
  function Pushing(x: Assignment, y: Assignment, i: nat): State {
    Stalled(x, y, i).(record := map["a" := Turn(x, y, i + 1)], pushes := [Push("a", Turn(x, y, i + 1), {0, 1})])
  }

  /** One agent with these streams, subscribed and initialised, nothing assigned. */
  lemma FirstStream()
    ensures Reachable(State(map[], {}, map["a" := {0}], map[0 := []], map[0 := []], []))
  {
    StartIsReached();
    hide Reachable;
    var s1 := Next(EMPTY, Subscribed("a", 0));
    ReachNext(EMPTY, Subscribed("a", 0));
    assert Streams(EMPTY.subscribers, "a") + {0} == {0};
    assert s1.subscribers == map["a" := {0}] && s1.queues == map[0 := []] && s1.sent == map[];
    var s2 := Next(s1, Initial("a", 0));
    ReachNext(s1, Initial("a", 0));
    assert s2.sent == map[0 := []];
  }

  lemma StallStarts(x: Assignment, y: Assignment)
    ensures Reachable(Stalled(x, y, 0))
  {
    FirstStream();
    hide Reachable;
    var s1 := State(map[], {}, map["a" := {0}], map[0 := []], map[0 := []], []);
    var s2 := Next(s1, Subscribed("a", 1));
    ReachNext(s1, Subscribed("a", 1));
    assert Streams(s1.subscribers, "a") + {1} == {0, 1};
    assert s2.subscribers == map["a" := {0, 1}] && s2.queues == map[0 := [], 1 := []] && s2.sent == map[0 := []];
    var s3 := Next(s2, Initial("a", 1));
    ReachNext(s2, Initial("a", 1));
    assert s3.sent == map[0 := [], 1 := []];
    assert s3 == Stalled(x, y, 0);
  }

  lemma StallCollects(x: Assignment, y: Assignment, i: nat)
    requires x != [] && y != [] && x != y && Reachable(Stalled(x, y, i))
    ensures Reachable(Pushing(x, y, i))
  {
    hide Reachable, Backlog;
    var s, specs := Stalled(x, y, i), Turn(x, y, i + 1);
    OneAgentBatch(s, specs);
    var e := Applied(map["a" := specs], {}, [Push("a", specs, {0, 1})]);
    hide IsBatch, Kept;
    assert Streams(s.subscribers, "a") == {0, 1};
    ReachNext(s, e);
    assert Next(s, e) == Pushing(x, y, i);
  }

  lemma StallTakes(x: Assignment, y: Assignment, i: nat)
    requires i < BUFFER
    ensures var t := Send(Pushing(x, y, i), 0);
      t.queues == map[0 := Backlog(x, y, i + 1), 1 := [Turn(x, y, i + 1)]] && t.pushes == [] && t.resync == {}
  {
    BacklogSize(x, y, i);
    var s := Pushing(x, y, i);
    assert 0 in s.pushes[0].chans && HasRoom(s, 0);
    var t := Send(s, 0);
    assert t.queues.Keys == {0, 1};
    assert t.queues[0] == Backlog(x, y, i) + [Turn(x, y, i + 1)] == Backlog(x, y, i + 1);
    assert t.queues[1] == [] + [Turn(x, y, i + 1)] == [Turn(x, y, i + 1)];
  }

  lemma StallSends(x: Assignment, y: Assignment, i: nat)
    requires i < BUFFER && Reachable(Pushing(x, y, i))
    ensures Reachable(Stalled(x, y, i + 1))
  {
    hide Reachable, Backlog, Queued;
    var s, specs := Pushing(x, y, i), Turn(x, y, i + 1);
    ReachNext(s, Sent(0));
    StallTakes(x, y, i);
    var t := Send(s, 0);
    ReachNext(t, Delivered(1));
    var u := Next(t, Delivered(1));
    assert [specs][1..] == [];
    assert u.queues == map[0 := Backlog(x, y, i + 1), 1 := []] && u.sent == map[0 := [], 1 := specs];
    assert u == Stalled(x, y, i + 1);
  }

  lemma {:induction false} StallGoesOn(x: Assignment, y: Assignment, i: nat)
    requires x != [] && y != [] && x != y && i <= BUFFER
    ensures Reachable(Stalled(x, y, i))
  {
    hide Reachable, Stalled, Pushing;
    if i == 0 {
      StallStarts(x, y);
    } else {
      StallGoesOn(x, y, i - 1);
      StallCollects(x, y, i - 1);
      StallSends(x, y, i - 1);
    }
  }

  lemma StallHides(x: Assignment, y: Assignment)
    requires x != y
    ensures !NoHiddenDrop(Pushing(x, y, BUFFER), 0)
  {
    BacklogSize(x, y, BUFFER);
    var s := Pushing(x, y, BUFFER);
    assert HasRoom(s, 1) && 1 in s.pushes[0].chans && Latest(s.pushes, 0);
    assert Backlog(x, y, BUFFER)[BUFFER - 1] == Turn(x, y, BUFFER) != Turn(x, y, BUFFER + 1);
    assert 0 in s.pushes[0].chans * Streams(s.subscribers, "a") && !HasRoom(s, 0) && !EndsWith(s, 0, s.pushes[0].specs);
  }

  lemma StallIsInv(x: Assignment, y: Assignment)
    requires x != [] && y != [] && x != y
    ensures Inv(Pushing(x, y, BUFFER))
  {
    var s := Pushing(x, y, BUFFER);
    BacklogSize(x, y, BUFFER);
    assert Latest(s.pushes, 0) && StreamsOk(s) && PushesOk(s);
    hide PushesOk, StreamsOk, Current;
    forall a, c | c in Streams(s.subscribers, a) ensures Agrees(s, a, c) {
      assert s.pushes[0].agent == a && c in s.pushes[0].chans;
    }
  }

  lemma StallIsStale(x: Assignment, y: Assignment)
    requires x != [] && y != [] && x != y
    ensures var t := Send(Pushing(x, y, BUFFER), 0);
      0 in t.queues && 0 in Streams(t.subscribers, "a") && !Current(t, "a", 0)
  {
    BacklogSize(x, y, BUFFER);
    var s := Pushing(x, y, BUFFER);
    assert !HasRoom(s, 0) && Send(s, 0).queues[0] == Backlog(x, y, BUFFER);
    assert Backlog(x, y, BUFFER)[BUFFER - 1] == Turn(x, y, BUFFER) != Turn(x, y, BUFFER + 1);
  }

  /** A run to a state with two streams of one agent, one full: the other takes the push, nothing is
      marked, and the full one keeps an old assignment that applying the same state again does not
      replace. */
  lemma TwoStreamsCanDisagree(x: Assignment, y: Assignment)
    requires x != [] && y != [] && x != y
    ensures var s := Pushing(x, y, BUFFER);
      var t := Send(s, 0);
      && Reachable(t) && t.pushes == [] && t.resync == {} && IsBatch(t, t.record, {}, [])
      && 0 in t.queues && 0 in Streams(t.subscribers, "a") && !Current(t, "a", 0) && !Inv(t)
  {
    hide Inv, NoHiddenDrop, Reachable, Backlog, IsBatch, Current;
    var s := Pushing(x, y, BUFFER);
    StallIsStale(x, y);
    StallGoesOn(x, y, BUFFER);
    StallCollects(x, y, BUFFER);
    ReachNext(s, Sent(0));
    StallIsInv(x, y);
    StallHides(x, y);
    HiddenDropBreaks(s, 0);
    assert HasRoom(s, 1) && 1 in s.pushes[0].chans;
    NothingToPush(Send(s, 0));
  }

  lemma NothingToPush(s: State)
    requires s.resync == {} && forall a :: a in s.record ==> s.record[a] != []
    ensures IsBatch(s, s.record, {}, [])
  {
    assert Kept(s.record, s.record, {}) == s.record;
  }

  // ---- two applies at once ----

  function TwoOutstanding(older: Assignment, newer: Assignment): State {
    State(map["a" := newer], {}, map["a" := {0}], map[0 := []], map[0 := []],
          [Push("a", older, {0}), Push("a", newer, {0})])
  }

  lemma TwoOutstandingIsReached(older: Assignment, newer: Assignment)
    requires older != [] && newer != [] && older != newer
    ensures Reachable(TwoOutstanding(older, newer))
  {
    FirstStream();
    hide Reachable, Kept;
    var s2 := State(map[], {}, map["a" := {0}], map[0 := []], map[0 := []], []);
    var e3 := Applied(map["a" := older], {}, [Push("a", older, {0})]);
    OneAgentBatch(s2, older);
    var s3 := Next(s2, e3);
    ReachNext(s2, e3);
    assert s3 == State(map["a" := older], {}, map["a" := {0}], map[0 := []], map[0 := []], [Push("a", older, {0})]);
    var e4 := Applied(map["a" := newer], {}, [Push("a", newer, {0})]);
    OneAgentBatch(s3, newer);
    ReachNext(s3, e4);
    assert Next(s3, e4) == TwoOutstanding(older, newer);
  }

  lemma CrossedQueue(older: Assignment, newer: Assignment)
    ensures var t := Send(Send(TwoOutstanding(older, newer), 1), 0);
      t.queues.Keys == {0} && t.queues[0] == [newer, older] && t.pushes == [] && t.resync == {}
  {
    var s := TwoOutstanding(older, newer);
    assert 0 in s.pushes[1].chans && HasRoom(s, 0);
    var u := Send(s, 1);
    assert u.queues.Keys == {0} && u.queues[0] == [] + [newer] == [newer];
    assert u.pushes == [s.pushes[0]] && u.resync == {};
    assert 0 in u.pushes[0].chans && HasRoom(u, 0);
  }

  /** A run with two applies at once whose pushes cross: the older assignment ends up last, unmarked. */
  lemma CrossedPushesDisagree(older: Assignment, newer: Assignment)
    requires older != [] && newer != [] && older != newer
    ensures var s := TwoOutstanding(older, newer);
      var t := Send(Send(s, 1), 0);
      Reachable(t) && !InTurn(s, 1) && t.pushes == [] && t.resync == {} && !Inv(t)
  {
    var s := TwoOutstanding(older, newer);
    TwoOutstandingIsReached(older, newer);
    CrossedQueue(older, newer);
    assert Latest(s.pushes, 1) && Previous(s.pushes, 1, 0);
    hide PushesOk, Queued, HasRoom, Reachable;
    var u := Send(s, 1);
    ReachNext(s, Sent(1));
    assert |u.pushes| == 1;
    ReachNext(u, Sent(0));
    var t := Send(u, 0);
    assert 0 in Streams(t.subscribers, "a") && !Current(t, "a", 0) && !Covered(t.pushes, "a", 0);
    assert StreamsOk(t) ==> !Agrees(t, "a", 0);
  }

  // ---- a whole apply with room in the queues ----

  function Drained(s: State): State
    decreases |s.pushes|
  {
    if s.pushes == [] then s else Drained(Send(s, 0))
  }

  /** Every outstanding push has room, and no two go to the same stream. */
  ghost predicate AllFit(s: State) {
    && (forall k, c :: 0 <= k < |s.pushes| && c in s.pushes[k].chans ==> HasRoom(s, c))
    && forall j, k :: 0 <= j < k < |s.pushes| ==> s.pushes[j].chans !! s.pushes[k].chans
  }

  lemma SendKeepsFit(s: State)
    requires AllFit(s) && s.pushes != []
    ensures var t := Send(s, 0); AllFit(t) && t.resync == s.resync && |t.pushes| < |s.pushes|
  {
    var p, t := s.pushes[0], Send(s, 0);
    if p.chans != {} {
      var c :| c in p.chans;
      assert HasRoom(s, c);
    }
    forall k, c | 0 <= k < |t.pushes| && c in t.pushes[k].chans ensures HasRoom(t, c) {
      assert t.pushes[k] == s.pushes[k + 1] && HasRoom(s, c) && p.chans !! s.pushes[k + 1].chans;
    }
    forall j, k | 0 <= j < k < |t.pushes| ensures t.pushes[j].chans !! t.pushes[k].chans {
      assert t.pushes[j] == s.pushes[j + 1] && t.pushes[k] == s.pushes[k + 1];
    }
  }

  lemma FitHidesNothing(s: State)
    requires AllFit(s) && s.pushes != []
    ensures Harmless(s, 0)
  {
  }

  lemma RoomTakesOne(s: State)
    requires Inv(s) && AllFit(s) && s.pushes != []
    ensures var t := Send(s, 0); Inv(t) && AllFit(t) && t.resync == s.resync && |t.pushes| < |s.pushes|
  {
    hide Inv, AllFit, Send;
    FitHidesNothing(s);
    SendKeepsInv(s, 0);
    SendKeepsFit(s);
  }

  lemma {:induction false} RoomSettlesAll(s: State)
    requires Inv(s) && AllFit(s) && s.resync == {}
    ensures var t := Drained(s); Inv(t) && t.pushes == [] && t.resync == {}
    decreases |s.pushes|
  {
    hide Inv, AllFit, Send;
    if s.pushes != [] {
      RoomTakesOne(s);
      RoomSettlesAll(Send(s, 0));
    }
  }

  lemma BatchChans(s: State, desired: map<string, Assignment>, unknown: set<string>, batch: seq<Push>)
    requires IsBatch(s, desired, unknown, batch)
    ensures forall i :: 0 <= i < |batch| ==> batch[i].chans == Streams(s.subscribers, batch[i].agent)
    ensures forall i, j :: 0 <= i < j < |batch| ==> batch[i].agent != batch[j].agent
  {
    hide Kept, Recorded, Streams, Pushed;
  }

  lemma BatchFits(s: State, desired: map<string, Assignment>, unknown: set<string>, batch: seq<Push>)
    requires StreamsOk(s) && s.pushes == [] && IsBatch(s, desired, unknown, batch)
    requires forall a, c :: c in Streams(s.subscribers, a) ==> HasRoom(s, c)
    ensures AllFit(Collect(s, desired, unknown, batch))
  {
    var t := Collect(s, desired, unknown, batch);
    assert t.pushes == batch;
    BatchChans(s, desired, unknown, batch);
    hide IsBatch, Kept, Recorded, Streams, Pushed;
    forall k, c | 0 <= k < |t.pushes| && c in t.pushes[k].chans ensures HasRoom(t, c) {
      assert c in Streams(s.subscribers, batch[k].agent) && HasRoom(s, c);
    }
    forall j, k | 0 <= j < k < |t.pushes| ensures t.pushes[j].chans !! t.pushes[k].chans {
      assert forall c :: c in batch[j].chans && c in batch[k].chans ==>
        c in Streams(s.subscribers, batch[j].agent) && c in Streams(s.subscribers, batch[k].agent);
    }
  }

  /** An apply that finds room leaves every stream at the record and no mark behind. */
  lemma ApplySettlesAll(s: State, desired: map<string, Assignment>, unknown: set<string>, batch: seq<Push>, a: string,
                        c: nat)
    requires Inv(s) && s.pushes == [] && IsBatch(s, desired, unknown, batch) && c in Streams(s.subscribers, a)
    requires forall b, d :: d in Streams(s.subscribers, b) ==> HasRoom(s, d)
    ensures var t := Drained(Collect(s, desired, unknown, batch));
      t.resync == {} && t.record == Kept(s.record, desired, unknown) && c in t.queues && Current(t, a, c)
  {
    hide Drained, IsBatch, PushesOk, Kept, Current, AllFit;
    var u := Collect(s, desired, unknown, batch);
    CollectKeepsInv(s, desired, unknown, batch);
    BatchFits(s, desired, unknown, batch);
    RoomSettlesAll(u);
    DrainedKeeps(u);
    var t := Drained(u);
    assert c in Streams(t.subscribers, a) && Agrees(t, a, c);
  }

  lemma {:induction false} DrainedKeeps(s: State)
    ensures Drained(s).record == s.record && Drained(s).subscribers == s.subscribers && Drained(s).pushes == []
    decreases |s.pushes|
  {
    if s.pushes != [] {
      DrainedKeeps(Send(s, 0));
    }
  }

  // ---- the object ----

  /** The part of a batch that concerns the agents looked at so far. */
  ghost predicate Partial(s: State, kept: map<string, Assignment>, batch: seq<Push>, seen: set<string>) {
    && (forall i, j :: 0 <= i < j < |batch| ==> batch[i].agent != batch[j].agent)
    && (forall i :: 0 <= i < |batch| ==>
      batch[i].agent in seen && Pushed(s, kept, batch[i].agent)
      && batch[i] == PushFor(s, kept, batch[i].agent))
    && (forall a :: a in seen && Pushed(s, kept, a) ==> InBatch(batch, a))
  }

  lemma PartialAdds(s: State, kept: map<string, Assignment>, batch: seq<Push>, seen: set<string>, a: string)
    requires Partial(s, kept, batch, seen) && a !in seen && Pushed(s, kept, a)
    ensures Partial(s, kept, batch + [Push(a, Recorded(kept, a), Streams(s.subscribers, a))], seen + {a})
  {
    var more := batch + [Push(a, Recorded(kept, a), Streams(s.subscribers, a))];
    hide Recorded, Streams;
    forall b | b in seen + {a} && Pushed(s, kept, b) ensures InBatch(more, b) {
      if b == a {
        assert more[|batch|].agent == a;
      } else {
        assert InBatch(batch, b);
        var i :| 0 <= i < |batch| && batch[i].agent == b;
        assert more[i].agent == b;
      }
    }
  }

  lemma PartialSkips(s: State, kept: map<string, Assignment>, batch: seq<Push>, seen: set<string>, a: string)
    requires Partial(s, kept, batch, seen) && !Pushed(s, kept, a)
    ensures Partial(s, kept, batch, seen + {a})
  {
  }

  lemma NothingSeen(s: State, kept: map<string, Assignment>)
    ensures Partial(s, kept, [], {})
  {
  }

  /** The record once the desired assignments of these agents are in. */
  function TakenIn(record: map<string, Assignment>, kept: map<string, Assignment>,
                   seen: set<string>): map<string, Assignment> {
    record + map a | a in kept && a in seen :: kept[a]
  }

  lemma TakenInAt(record: map<string, Assignment>, kept: map<string, Assignment>, seen: set<string>, a: string)
    requires a !in seen
    ensures Recorded(TakenIn(record, kept, seen), a) == Recorded(record, a)
    ensures a in kept ==> TakenIn(record, kept, seen + {a}) == TakenIn(record, kept, seen)[a := kept[a]]
    ensures a in kept && kept[a] != [] && Recorded(record, a) == kept[a] ==>
      TakenIn(record, kept, seen + {a}) == TakenIn(record, kept, seen)
  {
  }

  lemma TakenInAll(record: map<string, Assignment>, kept: map<string, Assignment>)
    ensures TakenIn(record, kept, {}) == record && TakenIn(record, kept, kept.Keys) == record + kept
  {
  }

  lemma KeptKeys(record: map<string, Assignment>, desired: map<string, Assignment>, unknown: set<string>)
    ensures var kept := Kept(record, desired, unknown);
      kept.Keys <= desired.Keys && forall a :: a in record || a in kept ==> (a in kept <==>
        a in desired && desired[a] != [])
  {
  }

  lemma KeptAt(record: map<string, Assignment>, desired: map<string, Assignment>, unknown: set<string>, a: string)
    requires a in desired
    ensures var kept := Kept(record, desired, unknown);
      (a in kept <==> desired[a] != [] && (a in unknown ==> a in record)) && (a in kept ==> kept[a] == desired[a])
  {
  }

  method SameSpecs(a: Assignment, b: Assignment) returns (same: bool)
    ensures same <==> a == b
  {
    if |a| != |b| {
      return false;
    }
    for i := 0 to |a|
      invariant a[..i] == b[..i]
    {
      if a[i] != b[i] {
        return false;
      }
    }
    return true;
  }

  /** The first loop of apply: the desired assignments that are new or due again. */
  method TakeDesired(s: State, desired: map<string, Assignment>, unknown: set<string>)
    returns (record: map<string, Assignment>, resync: set<string>, pushes: seq<Push>)
    requires forall a :: a in s.record ==> s.record[a] != []
    ensures var kept := Kept(s.record, desired, unknown);
      Partial(s, kept, pushes, kept.Keys) && record == s.record + kept && resync == s.resync - kept.Keys
  {
    hide Partial, Kept, Streams, TakenIn, Pushed;
    ghost var kept := Kept(s.record, desired, unknown);
    KeptKeys(s.record, desired, unknown);
    TakenInAll(s.record, kept);
    record, resync, pushes := s.record, s.resync, [];
    var left := desired.Keys;
    ghost var seen: set<string> := {};
    NothingSeen(s, kept);
    while left != {}
      invariant left <= desired.Keys && left !! seen && seen <= kept.Keys <= seen + left
      invariant Partial(s, kept, pushes, seen)
      invariant record == TakenIn(s.record, kept, seen) && resync == s.resync - seen
      decreases left
    {
      var a :| a in left;
      left := left - {a};
      KeptAt(s.record, desired, unknown, a);
      TakenInAt(s.record, kept, seen, a);
      if desired[a] != [] && !(a in unknown && Recorded(record, a) == []) {
        var same := SameSpecs(Recorded(record, a), desired[a]);
        PushedAt(s, kept, a);
        if a in resync || !same {
          PartialAdds(s, kept, pushes, seen, a);
          record, resync := record[a := desired[a]], resync - {a};
          pushes := pushes + [Push(a, desired[a], Streams(s.subscribers, a))];
        } else {
          PartialSkips(s, kept, pushes, seen, a);
        }
        seen := seen + {a};
      }
    }
    assert seen == kept.Keys;
  }

  lemma PushedAt(s: State, kept: map<string, Assignment>, a: string)
    ensures Pushed(s, kept, a) <==> a in s.resync || Recorded(s.record, a) != Recorded(kept, a)
  {
  }

  /** The second: agents with nothing desired any more. */
  method DropUndesired(s: State, desired: map<string, Assignment>, ghost unknown: set<string>,
                       record0: map<string, Assignment>, resync0: set<string>, pushes0: seq<Push>)
    returns (record: map<string, Assignment>, resync: set<string>, pushes: seq<Push>)
    requires forall a :: a in s.record ==> s.record[a] != []
    requires var kept := Kept(s.record, desired, unknown);
      Partial(s, kept, pushes0, kept.Keys) && record0 == s.record + kept && resync0 == s.resync - kept.Keys
    ensures var kept := Kept(s.record, desired, unknown);
      && Partial(s, kept, pushes, kept.Keys + s.record.Keys)
      && record == kept && resync == s.resync - kept.Keys - s.record.Keys
  {
    hide Partial, Kept, Streams, Pushed;
    ghost var kept := Kept(s.record, desired, unknown);
    KeptKeys(s.record, desired, unknown);
    record, resync, pushes := record0, resync0, pushes0;
    var left := record0.Keys;
    ghost var gone: set<string> := {};
    assert kept.Keys + gone == kept.Keys;
    while left != {}
      invariant left <= record0.Keys && gone <= record0.Keys - kept.Keys - left
      invariant record0.Keys <= kept.Keys + gone + left
      invariant Partial(s, kept, pushes, kept.Keys + gone)
      invariant record == record0 - gone && resync == resync0 - gone
      decreases left
    {
      var a :| a in left;
      left := left - {a};
      if !(a in desired && desired[a] != []) {
        PushedAt(s, kept, a);
        PartialAdds(s, kept, pushes, kept.Keys + gone, a);
        assert kept.Keys + gone + {a} == kept.Keys + (gone + {a});
        record, resync := record - {a}, resync - {a};
        pushes := pushes + [Push(a, [], Streams(s.subscribers, a))];
        gone := gone + {a};
      }
    }
    assert kept.Keys + gone == kept.Keys + s.record.Keys;
  }

  /** The third: marked agents that hold nothing. */
  method PushMarked(s: State, ghost kept: map<string, Assignment>, ghost seen0: set<string>, resync: set<string>,
                    pushes0: seq<Push>)
    returns (pushes: seq<Push>)
    requires Partial(s, kept, pushes0, seen0) && resync == s.resync - seen0 && kept.Keys <= seen0
    ensures Partial(s, kept, pushes, seen0 + resync)
  {
    hide Partial, Streams, Pushed;
    pushes := pushes0;
    var left := resync;
    assert seen0 + (resync - left) == seen0;
    while left != {}
      invariant left <= resync && Partial(s, kept, pushes, seen0 + (resync - left))
      decreases left
    {
      var a :| a in left;
      PushedAt(s, kept, a);
      PartialAdds(s, kept, pushes, seen0 + (resync - left), a);
      pushes := pushes + [Push(a, [], Streams(s.subscribers, a))];
      assert seen0 + (resync - left) + {a} == seen0 + (resync - (left - {a}));
      left := left - {a};
    }
    assert resync - left == resync;
  }

  lemma BatchIgnoresSent(s: State, t: State, desired: map<string, Assignment>, unknown: set<string>, batch: seq<Push>)
    requires IsBatch(s, desired, unknown, batch) && t == s.(sent := t.sent)
    ensures IsBatch(t, desired, unknown, batch)
  {
    forall a
      ensures Pushed(t, Kept(t.record, desired, unknown), a) <==> Pushed(s, Kept(s.record, desired, unknown), a)
    {
    }
  }

  lemma PushChans(s: State)
    requires Inv(s)
    ensures forall i :: 0 <= i < |s.pushes| ==> s.pushes[i].chans <= s.queues.Keys
  {
  }

  /** The state after a whole apply: the collected pushes, all sent. */
  ghost predicate Settled(s: State, desired: map<string, Assignment>, unknown: set<string>, t: State, changed: nat) {
    exists batch ::
      IsBatch(s, desired, unknown, batch) && changed == |batch| && t == Drained(Collect(s, desired, unknown, batch))
  }

  lemma PartialIsBatch(s: State, desired: map<string, Assignment>, unknown: set<string>, batch: seq<Push>,
                       seen: set<string>)
    requires Partial(s, Kept(s.record, desired, unknown), batch, seen)
    requires s.resync <= seen && s.record.Keys <= seen && Kept(s.record, desired, unknown).Keys <= seen
    ensures IsBatch(s, desired, unknown, batch)
  {
    hide Kept;
  }

  ghost predicate SomeRoom(queues: map<nat, seq<Assignment>>, chans: set<nat>) {
    exists c :: c in chans && c in queues && |queues[c]| < BUFFER
  }

  /** One more stream of a push. */
  lemma QueuedAt(queues: map<nat, seq<Assignment>>, p: Push, chans: set<nat>, c: nat)
    requires c in queues && c !in chans
    ensures var before, after := Queued(queues, p.(chans := chans)), Queued(queues, p.(chans := chans + {c}));
      && c in before && before[c] == queues[c]
      && after == if |queues[c]| < BUFFER then before[c := queues[c] + [p.specs]] else before
    ensures SomeRoom(queues, chans + {c}) <==> SomeRoom(queues, chans) || |queues[c]| < BUFFER
  {
    assert |queues[c]| < BUFFER ==> c in chans + {c};
  }

  lemma QueuedNone(queues: map<nat, seq<Assignment>>, p: Push)
    ensures Queued(queues, p.(chans := {})) == queues && !SomeRoom(queues, {}) && p.(chans := p.chans) == p
  {
  }

  /** One push: to every stream without blocking. */
  method SendOne(queues0: map<nat, seq<Assignment>>, p: Push) returns (queues: map<nat, seq<Assignment>>, queued: bool)
    requires p.chans <= queues0.Keys
    ensures queues == Queued(queues0, p)
    ensures queued <==> SomeRoom(queues0, p.chans)
  {
    hide Queued, SomeRoom;
    queues, queued := queues0, false;
    QueuedNone(queues0, p);
    var left := p.chans;
    ghost var seen: set<nat> := {};
    while left != {}
      invariant seen == p.chans - left && left <= p.chans && queues == Queued(queues0, p.(chans := seen))
      invariant queued <==> SomeRoom(queues0, seen)
      decreases left
    {
      var c :| c in left;
      QueuedAt(queues0, p, seen, c);
      if |queues[c]| < BUFFER {
        queues, queued := queues[c := queues[c] + [p.specs]], true;
      }
      left, seen := left - {c}, seen + {c};
    }
    assert seen == p.chans;
  }

  class ExternalCheckManager {
    var assignments: map<string, Assignment>
    var resync: set<string>
    var subscribers: map<string, set<nat>>
    var queues: map<nat, seq<Assignment>>
    ghost var sent: map<nat, Assignment>

    constructor ()
      ensures View([]) == EMPTY
    {
      assignments, resync, subscribers, queues, sent := map[], {}, map[], map[], map[];
    }

    ghost function View(pushes: seq<Push>): State
      reads this
    {
      State(assignments, resync, subscribers, queues, sent, pushes)
    }

    method Subscribe(agent: string, c: nat)
      requires c !in queues
      modifies this
      ensures View([]) == Next(old(View([])), Subscribed(agent, c))
    {
      if agent !in subscribers {
        subscribers := subscribers[agent := {}];
      }
      subscribers := subscribers[agent := subscribers[agent] + {c}];
      queues, sent := queues[c := []], sent - {c};
    }

    method Cleanup(agent: string, c: nat)
      modifies this`subscribers
      ensures c in Streams(old(subscribers), agent) ==> View([]) == Next(old(View([])), Closed(agent, c))
      ensures agent !in old(subscribers) ==> subscribers == old(subscribers)
      ensures Streams(subscribers, agent) == Streams(old(subscribers), agent) - {c}
      ensures agent in subscribers ==> subscribers[agent] != {}
      ensures subscribers - {agent} == old(subscribers) - {agent}
    {
      if agent in subscribers {
        var left := subscribers[agent] - {c};
        if left == {} {
          subscribers := subscribers - {agent};
        } else {
          subscribers := subscribers[agent := left];
        }
      }
    }

    /** Under the lock: the new record, and what is to be sent after it. */
    method CollectPushes(desired: map<string, Assignment>, unknown: set<string>) returns (pushes: seq<Push>)
      requires StreamsOk(View([]))
      modifies this`assignments, this`resync
      ensures IsBatch(old(View([])), desired, unknown, pushes)
      ensures View(pushes) == Collect(old(View([])), desired, unknown, pushes)
    {
      hide Partial, Kept, IsBatch, Recorded, Streams;
      ghost var s := View([]);
      var now := State(assignments, resync, subscribers, queues, map[], []);
      var record, marked, batch := TakeDesired(now, desired, unknown);
      record, marked, batch := DropUndesired(now, desired, unknown, record, marked, batch);
      ghost var kept := Kept(assignments, desired, unknown);
      batch := PushMarked(now, kept, kept.Keys + s.record.Keys, marked, batch);
      PartialIsBatch(now, desired, unknown, batch, kept.Keys + s.record.Keys + marked);
      BatchIgnoresSent(now, s, desired, unknown, batch);
      assignments, resync, pushes := record, {}, batch;
    }

    /** After the lock: one push, and the mark if no stream took it. */
    method SendNext(p: Push, ghost rest: seq<Push>)
      requires p.chans <= queues.Keys
      modifies this`resync, this`queues
      ensures View(rest) == Send(old(View([p] + rest)), 0) && queues.Keys == old(queues.Keys)
    {
      ghost var before := View([p] + rest);
      var queued;
      queues, queued := SendOne(queues, p);
      if p.chans != {} && !queued {
        resync := resync + {p.agent};
      }
      assert ([p] + rest)[1..] == rest && ([p] + rest)[..0] + rest == rest;
      assert forall c :: c in p.chans ==> (HasRoom(before, c) <==> |before.queues[c]| < BUFFER);
    }

    method SendAll(pushes: seq<Push>)
      requires forall i :: 0 <= i < |pushes| ==> pushes[i].chans <= queues.Keys
      modifies this`resync, this`queues
      ensures View([]) == Drained(old(View(pushes)))
    {
      hide Send;
      ghost var t := View(pushes);
      assert pushes[0..] == pushes;
      for k := 0 to |pushes|
        invariant Drained(View(pushes[k..])) == Drained(t)
        invariant forall i :: k <= i < |pushes| ==> pushes[i].chans <= queues.Keys
      {
        assert pushes[k..] == [pushes[k]] + pushes[k + 1..];
        SendNext(pushes[k], pushes[k + 1..]);
      }
      assert pushes[|pushes|..] == [];
    }

    method Apply(desired: map<string, Assignment>, unknown: set<string>) returns (changed: nat)
      requires Inv(View([]))
      modifies this`assignments, this`resync, this`queues
      ensures Settled(old(View([])), desired, unknown, View([]), changed)
    {
      ghost var s := View([]);
      var pushes := CollectPushes(desired, unknown);
      CollectKeepsInv(s, desired, unknown, pushes);
      PushChans(View(pushes));
      hide Inv, IsBatch, Collect, Drained;
      SendAll(pushes);
      changed := |pushes|;
    }
  }
}
