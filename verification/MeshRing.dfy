/** The ring of the sparse mesh: the agents by node name, ties by id. The order is total, so every
    replica sorts the same fleet into the same ring. */
module MeshRing {

  datatype Agent = Agent(id: string, node: string, zone: string)

  /** Byte-wise string order. */
  predicate Before(a: string, b: string) {
    b != [] && (a == [] || a[0] < b[0] || (a[0] == b[0] && Before(a[1..], b[1..])))
  }

  /** a and b agree up to k, where a ends or has the smaller character. */
  ghost predicate SplitsAt(a: string, b: string, k: nat) {
    k <= |a| && k < |b| && a[..k] == b[..k] && (k == |a| || a[k] < b[k])
  }

  lemma {:induction false} BeforeSplits(a: string, b: string) returns (k: nat)
    requires Before(a, b)
    ensures SplitsAt(a, b, k)
  {
    if a != [] && a[0] == b[0] {
      k := BeforeSplits(a[1..], b[1..]);
      assert a[..k + 1] == [a[0]] + a[1..][..k] && b[..k + 1] == [b[0]] + b[1..][..k];
      k := k + 1;
    } else {
      k := 0;
    }
  }

  lemma {:induction false} SplitIsBefore(a: string, b: string, k: nat)
    requires SplitsAt(a, b, k)
    ensures Before(a, b)
    decreases k
  {
    if k > 0 {
      assert a[0] == a[..k][0] == b[..k][0] == b[0];
      assert a[1..][..k - 1] == a[..k][1..] && b[1..][..k - 1] == b[..k][1..];
      SplitIsBefore(a[1..], b[1..], k - 1);
    }
  }

  /** The order of a dictionary. */
  lemma BeforeIsLexicographic(a: string, b: string)
    ensures Before(a, b) <==> exists k: nat :: SplitsAt(a, b, k)
  {
    if Before(a, b) {
      var k := BeforeSplits(a, b);
    }
    if k: nat :| SplitsAt(a, b, k) {
      SplitIsBefore(a, b, k);
    }
  }

  lemma {:induction false} BeforeIsTotal(a: string, b: string)
    ensures a != b ==> Before(a, b) || Before(b, a)
    ensures !(Before(a, b) && Before(b, a)) && !Before(a, a)
  {
    if a != [] {
      BeforeIsTotal(a[1..], a[1..]);
    }
    if a != [] && b != [] && a[0] == b[0] {
      BeforeIsTotal(a[1..], b[1..]);
      if a[1..] == b[1..] {
        assert a == [a[0]] + a[1..] && b == [b[0]] + b[1..];
      }
    }
  }

  lemma {:induction false} BeforeIsTransitive(a: string, b: string, c: string)
    requires Before(a, b) && Before(b, c)
    ensures Before(a, c)
  {
    if a != [] && a[0] == b[0] == c[0] {
      BeforeIsTransitive(a[1..], b[1..], c[1..]);
    }
  }

  predicate Precedes(a: Agent, b: Agent) {
    if a.node != b.node then Before(a.node, b.node) else Before(a.id, b.id)
  }

  lemma PrecedesIsTotal(a: Agent, b: Agent)
    ensures a.id != b.id ==> Precedes(a, b) || Precedes(b, a)
    ensures !(Precedes(a, b) && Precedes(b, a))
  {
    BeforeIsTotal(a.node, b.node);
    BeforeIsTotal(a.id, b.id);
  }

  lemma PrecedesIsTransitive(a: Agent, b: Agent, c: Agent)
    requires Precedes(a, b) && Precedes(b, c)
    ensures Precedes(a, c)
  {
    hide Before;
    if a.node != b.node && b.node != c.node {
      BeforeIsTransitive(a.node, b.node, c.node);
      BeforeIsTotal(a.node, b.node);
    } else if a.node == b.node == c.node {
      BeforeIsTransitive(a.id, b.id, c.id);
    }
  }

  ghost predicate Sorted(ring: seq<Agent>) {
    forall i, j :: 0 <= i < j < |ring| ==> Precedes(ring[i], ring[j])
  }

  ghost predicate DistinctIds(agents: seq<Agent>) {
    forall i, j :: 0 <= i < j < |agents| ==> agents[i].id != agents[j].id
  }

  /** The fleet, in ring order. */
  ghost predicate IsRing(agents: seq<Agent>, ring: seq<Agent>) {
    multiset(ring) == multiset(agents) && Sorted(ring)
  }

  lemma {:induction false} DistinctSurvives(agents: seq<Agent>, ring: seq<Agent>)
    requires DistinctIds(agents) && multiset(ring) == multiset(agents)
    ensures DistinctIds(ring) && |ring| == |agents|
  {
    assert |multiset(ring)| == |multiset(agents)|;
    forall i, j | 0 <= i < j < |ring| ensures ring[i].id != ring[j].id {
      var a, b := ring[i], ring[j];
      assert a in multiset(agents) && b in multiset(agents);
      if a == b {
        TwiceInSeq(ring, i, j);
        OnceInDistinct(agents, a);
      }
      var x :| 0 <= x < |agents| && agents[x] == a;
      var y :| 0 <= y < |agents| && agents[y] == b;
    }
  }

  lemma TwiceInSeq(s: seq<Agent>, i: nat, j: nat)
    requires i < j < |s| && s[i] == s[j]
    ensures multiset(s)[s[i]] >= 2
  {
    assert s == s[..j] + [s[j]] + s[j + 1..];
    assert s[i] in s[..j];
  }

  lemma {:induction false} OnceInDistinct(s: seq<Agent>, a: Agent)
    requires DistinctIds(s)
    ensures multiset(s)[a] <= 1
  {
    if s != [] {
      assert s == [s[0]] + s[1..];
      OnceInDistinct(s[1..], a);
      if s[0] == a {
        assert a !in s[1..];
      }
    }
  }

  lemma SameFirst(r1: seq<Agent>, r2: seq<Agent>)
    requires Sorted(r1) && Sorted(r2) && multiset(r1) == multiset(r2) && r1 != [] && r2 != []
    ensures r1[0] == r2[0]
  {
    hide Precedes;
    assert r1[0] in multiset(r2) && r2[0] in multiset(r1);
    var i :| 0 <= i < |r2| && r2[i] == r1[0];
    var j :| 0 <= j < |r1| && r1[j] == r2[0];
    PrecedesIsTotal(r1[0], r2[0]);
  }

  lemma TailOf(r: seq<Agent>)
    requires r != [] && Sorted(r)
    ensures r == [r[0]] + r[1..] && multiset(r[1..]) == multiset(r) - multiset{r[0]} && Sorted(r[1..])
  {
    hide Precedes;
    assert r == [r[0]] + r[1..];
  }

  /** There is one ring: two replicas that hold the same agents in any order agree on it. */
  lemma {:induction false} RingIsUnique(r1: seq<Agent>, r2: seq<Agent>)
    requires Sorted(r1) && Sorted(r2) && multiset(r1) == multiset(r2)
    ensures r1 == r2
  {
    hide Sorted;
    assert |multiset(r1)| == |multiset(r2)|;
    if r1 != [] {
      SameFirst(r1, r2);
      TailOf(r1);
      TailOf(r2);
      RingIsUnique(r1[1..], r2[1..]);
    }
  }

  /** The sort, one agent at a time. */
  method SortRing(agents: seq<Agent>) returns (ring: seq<Agent>)
    requires DistinctIds(agents)
    ensures IsRing(agents, ring)
    ensures forall i, j :: 0 <= i < j < |ring| ==> ring[i].node == ring[j].node || Before(ring[i].node, ring[j].node)
    ensures forall i, j :: 0 <= i < j < |ring| && ring[i].node == ring[j].node ==> Before(ring[i].id, ring[j].id)
  {
    ring := [];
    for i := 0 to |agents|
      invariant multiset(ring) == multiset(agents[..i]) && Sorted(ring)
    {
      assert agents[..i + 1] == agents[..i] + [agents[i]];
      assert forall a :: a in ring ==> a.id != agents[i].id by {
        forall a | a in ring ensures a.id != agents[i].id {
          assert a in multiset(agents[..i]);
        }
      }
      ring := InsertSorted(ring, agents[i]);
    }
    assert agents[..|agents|] == agents;
  }

  lemma InsertKeepsSorted(ring: seq<Agent>, a: Agent, k: nat)
    requires Sorted(ring) && k <= |ring|
    requires forall i :: 0 <= i < k ==> Precedes(ring[i], a)
    requires forall i :: k <= i < |ring| ==> Precedes(a, ring[i])
    ensures Sorted(ring[..k] + [a] + ring[k..])
  {
    hide Precedes;
    var r := ring[..k] + [a] + ring[k..];
    forall i, j | 0 <= i < j < |r| ensures Precedes(r[i], r[j]) {
      assert r[i] == if i < k then ring[i] else if i == k then a else ring[i - 1];
      assert r[j] == if j < k then ring[j] else if j == k then a else ring[j - 1];
    }
  }

  method InsertSorted(ring: seq<Agent>, a: Agent) returns (r: seq<Agent>)
    requires Sorted(ring) && forall b :: b in ring ==> b.id != a.id
    ensures Sorted(r) && multiset(r) == multiset(ring) + multiset{a}
  {
    hide Precedes;
    var k := |ring|;
    while k > 0 && Precedes(a, ring[k - 1])
      invariant 0 <= k <= |ring|
      invariant forall i :: k <= i < |ring| ==> Precedes(a, ring[i])
    {
      k := k - 1;
    }
    forall i | 0 <= i < k ensures Precedes(ring[i], a) {
      PrecedesIsTotal(ring[k - 1], a);
      if i < k - 1 {
        PrecedesIsTransitive(ring[i], ring[k - 1], a);
      }
    }
    InsertKeepsSorted(ring, a, k);
    hide Sorted;
    r := ring[..k] + [a] + ring[k..];
    assert ring == ring[..k] + ring[k..];
  }
}
