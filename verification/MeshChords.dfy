/** Highest-random-weight selection: the bounded window that keeps the k best candidates, and the
    chords picked from it. The weight is any function of the candidate. */
module MeshChords {

  datatype Scored = Scored(idx: nat, score: nat)

  /** Higher weight first, ties by ring order. */
  predicate Outranks(a: Scored, b: Scored) {
    a.score > b.score || (a.score == b.score && a.idx < b.idx)
  }

  type Weight = nat -> nat

  predicate Beats(f: Weight, x: nat, y: nat) {
    Outranks(Scored(x, f(x)), Scored(y, f(y)))
  }

  ghost predicate Ranked(best: seq<Scored>) {
    forall p, q :: 0 <= p < q < |best| ==> Outranks(best[p], best[q])
  }

  ghost predicate Holds(best: seq<Scored>, x: nat) {
    exists p :: 0 <= p < |best| && best[p].idx == x
  }

  /** best is the k top-ranked of the candidates seen, best first. */
  ghost predicate TopK(f: Weight, best: seq<Scored>, seen: set<nat>, k: nat) {
    && Ranked(best) && |best| <= k
    && (forall p :: 0 <= p < |best| ==> best[p].idx in seen && best[p].score == f(best[p].idx))
    && (forall x :: x in seen && !Holds(best, x) ==> |best| == k && forall p :: 0 <= p < |best| ==>
      Outranks(best[p], Scored(x, f(x))))
  }

  /** A candidate c put in its place i among the window's survivors. */
  ghost predicate Placed(f: Weight, best: seq<Scored>, k: nat, c: Scored, base: seq<Scored>, i: nat) {
    && c.score == f(c.idx) && k > 0 && i <= |base|
    && (if |best| < k then base == best else |best| == k && base == best[..k - 1] && Outranks(c, best[k - 1]))
    && (forall p :: i <= p < |base| ==> Outranks(c, base[p]))
    && (i > 0 ==> !Outranks(c, base[i - 1]))
  }

  function Inserted(base: seq<Scored>, c: Scored, i: nat): seq<Scored>
    requires i <= |base|
  {
    base[..i] + [c] + base[i..]
  }

  lemma InsertedAt(base: seq<Scored>, c: Scored, i: nat)
    requires i <= |base|
    ensures var r := Inserted(base, c, i);
      |r| == |base| + 1 && r[i] == c && (forall p :: 0 <= p < i ==> r[p] == base[p]) && forall p :: i < p < |r| ==>
        r[p] == base[p - 1]
  {
  }

  lemma InsertRanked(c: Scored, base: seq<Scored>, i: nat)
    requires Ranked(base) && i <= |base|
    requires forall p :: i <= p < |base| ==> Outranks(c, base[p])
    requires i > 0 ==> Outranks(base[i - 1], c)
    ensures Ranked(Inserted(base, c, i))
  {
    hide Inserted;
    InsertedAt(base, c, i);
    assert forall p :: 0 <= p < i - 1 ==> Outranks(base[p], base[i - 1]);
  }

  /** A candidate of base is in its place before or after c. */
  lemma InsertedHolds(base: seq<Scored>, c: Scored, i: nat, x: nat)
    requires i <= |base| && !Holds(Inserted(base, c, i), x)
    ensures x != c.idx && forall p :: 0 <= p < |base| ==> base[p].idx != x
  {
    hide Inserted;
    InsertedAt(base, c, i);
    var r := Inserted(base, c, i);
    forall p | 0 <= p < |base| ensures base[p].idx != x {
      assert r[if p < i then p else p + 1] == base[p];
    }
  }

  lemma InsertExcludes(f: Weight, best: seq<Scored>, seen: set<nat>, k: nat, c: Scored, base: seq<Scored>, i: nat,
                       x: nat)
    requires TopK(f, best, seen, k) && c.idx !in seen && Placed(f, best, k, c, base, i)
    requires x in seen && !Holds(Inserted(base, c, i), x)
    ensures |best| == k && (forall p :: 0 <= p < |base| ==> Outranks(base[p], Scored(x, f(x))))
    ensures Outranks(c, Scored(x, f(x)))
  {
    hide Inserted, Ranked;
    InsertedHolds(base, c, i, x);
    assert forall p :: 0 <= p < |base| ==> base[p] == best[p];
    if Holds(best, x) {
      var p :| 0 <= p < |best| && best[p].idx == x;
      assert p == k - 1;
      LastIsLeast(best);
    }
  }

  lemma LastIsLeast(best: seq<Scored>)
    requires Ranked(best) && best != []
    ensures forall p :: 0 <= p < |best| - 1 ==> Outranks(best[p], best[|best| - 1])
  {
  }

  lemma PlacedRanks(f: Weight, best: seq<Scored>, seen: set<nat>, k: nat, c: Scored, base: seq<Scored>, i: nat)
    requires TopK(f, best, seen, k) && c.idx !in seen && Placed(f, best, k, c, base, i)
    ensures Ranked(Inserted(base, c, i))
  {
    hide Inserted;
    assert forall p :: 0 <= p < |base| ==> base[p] == best[p];
    InsertRanked(c, base, i);
  }

  lemma PlacedScores(f: Weight, best: seq<Scored>, seen: set<nat>, k: nat, c: Scored, base: seq<Scored>, i: nat)
    requires TopK(f, best, seen, k) && Placed(f, best, k, c, base, i)
    ensures var r := Inserted(base, c, i);
      |r| <= k && (|best| == k ==> |r| == k)
      && forall p :: 0 <= p < |r| ==> r[p].idx in seen + {c.idx} && r[p].score == f(r[p].idx)
  {
    hide Inserted, Ranked, Outranks;
    InsertedAt(base, c, i);
    assert forall p :: 0 <= p < |base| ==> base[p] == best[p];
  }

  lemma InsertKeepsTopK(f: Weight, best: seq<Scored>, seen: set<nat>, k: nat, c: Scored, base: seq<Scored>, i: nat)
    requires TopK(f, best, seen, k) && c.idx !in seen && Placed(f, best, k, c, base, i)
    ensures TopK(f, Inserted(base, c, i), seen + {c.idx}, k)
  {
    var r := Inserted(base, c, i);
    hide Inserted, Outranks, Ranked;
    PlacedRanks(f, best, seen, k, c, base, i);
    PlacedScores(f, best, seen, k, c, base, i);
    InsertedAt(base, c, i);
    forall x | x in seen + {c.idx} && !Holds(r, x)
      ensures |r| == k && forall p :: 0 <= p < |r| ==> Outranks(r[p], Scored(x, f(x)))
    {
      InsertedHolds(base, c, i, x);
      InsertExcludes(f, best, seen, k, c, base, i, x);
    }
  }

  /** pushBest: the window after one more candidate. */
  method PushBest(best: seq<Scored>, c: Scored, k: nat, ghost f: Weight, ghost seen: set<nat>) returns (r: seq<Scored>)
    requires TopK(f, best, seen, k) && c.idx !in seen && c.score == f(c.idx) && k > 0
    ensures TopK(f, r, seen + {c.idx}, k)
  {
    hide TopK, Inserted, Holds;
    ghost var base := best;
    WindowSize(f, best, seen, k);
    if |best| < k {
      r := best + [c];
      AppendedIs(best, c);
    } else if Outranks(c, best[|best| - 1]) {
      r := best[|best| - 1 := c];
      base := best[..k - 1];
      AppendedIs(base, c);
      assert r == base + [c];
    } else {
      LoserStaysOut(f, best, seen, k, c);
      return best;
    }
    var i := |r| - 1;
    while i > 0 && Outranks(r[i], r[i - 1])
      invariant 0 <= i <= |base| && |r| == |base| + 1
      invariant r == Inserted(base, c, i)
      invariant forall p :: i <= p < |base| ==> Outranks(c, base[p])
    {
      InsertedAt(base, c, i);
      InsertedMoves(base, c, i);
      r := r[i - 1 := r[i]][i := r[i - 1]];
      i := i - 1;
    }
    InsertedAt(base, c, i);
    InsertKeepsTopK(f, best, seen, k, c, base, i);
  }

  lemma WindowSize(f: Weight, best: seq<Scored>, seen: set<nat>, k: nat)
    requires TopK(f, best, seen, k)
    ensures |best| <= k
  {
  }

  lemma AppendedIs(base: seq<Scored>, c: Scored)
    ensures base + [c] == Inserted(base, c, |base|)
  {
  }

  /** One swap of the insertion. */
  lemma InsertedMoves(base: seq<Scored>, c: Scored, i: nat)
    requires 0 < i <= |base|
    ensures var r := Inserted(base, c, i);
      |r| == |base| + 1 && r[i - 1 := r[i]][i := r[i - 1]] == Inserted(base, c, i - 1)
  {
  }

  /** A candidate the last of a full window outranks is none of the k best. */
  lemma LoserStaysOut(f: Weight, best: seq<Scored>, seen: set<nat>, k: nat, c: Scored)
    requires TopK(f, best, seen, k) && |best| == k > 0 && c.score == f(c.idx) && c.idx !in seen
    requires !Outranks(c, best[k - 1])
    ensures TopK(f, best, seen + {c.idx}, k)
  {
    LastIsLeast(best);
    assert best[k - 1].idx != c.idx;
    assert forall p :: 0 <= p < |best| ==> Outranks(best[p], c);
    hide Ranked;
  }

  /** The scan over the ring: the k best of the candidates. */
  method BestOf(n: nat, cand: set<nat>, f: Weight, k: nat) returns (best: seq<Scored>)
    requires k > 0 && forall x :: x in cand ==> x < n
    ensures TopK(f, best, cand, k)
  {
    best := [];
    ghost var seen := {};
    for j := 0 to n
      invariant seen == set x | x in cand && x < j
      invariant TopK(f, best, seen, k)
    {
      if j in cand {
        best := PushBest(best, Scored(j, f(j)), k, f, seen);
        seen := seen + {j};
      }
    }
    assert seen == cand;
  }

  // ---- the simple form ----

  /** picked is the k top-ranked candidates, or all of them when there are fewer. */
  ghost predicate IsTop(f: Weight, picked: set<nat>, cand: set<nat>, k: nat) {
    && picked <= cand && |picked| <= k && (|picked| < k ==> picked == cand)
    && forall c, x :: c in picked && x in cand && x !in picked ==> Beats(f, c, x)
  }

  lemma {:induction false} SubsetSize(a: set<nat>, b: set<nat>)
    requires a <= b
    ensures |a| <= |b| && (|a| == |b| ==> a == b)
  {
    if a != {} {
      var x :| x in a;
      SubsetSize(a - {x}, b - {x});
    }
  }

  /** There is one such set, so every replica draws the same chords. */
  lemma TopIsUnique(f: Weight, a: set<nat>, b: set<nat>, cand: set<nat>, k: nat)
    requires IsTop(f, a, cand, k) && IsTop(f, b, cand, k)
    ensures a == b
  {
    SubsetSize(a, cand);
    SubsetSize(b, cand);
    if a != b {
      if a <= b {
        SubsetSize(a, b);
      }
      if b <= a {
        SubsetSize(b, a);
      }
      var x :| x in a && x !in b;
      var y :| y in b && y !in a;
    }
  }

  /** The candidates in the first p places of the window. */
  ghost function Front(best: seq<Scored>, p: nat): set<nat>
    requires p <= |best|
  {
    if p == 0 then {} else Front(best, p - 1) + {best[p - 1].idx}
  }

  lemma {:induction false} FrontHolds(best: seq<Scored>, p: nat)
    requires p <= |best|
    ensures forall q :: 0 <= q < p ==> best[q].idx in Front(best, p)
    ensures forall x :: x in Front(best, p) ==> exists q :: 0 <= q < p && best[q].idx == x
  {
    if p > 0 {
      FrontHolds(best, p - 1);
    }
  }

  lemma FrontIsNew(f: Weight, best: seq<Scored>, p: nat)
    requires p < |best| && Ranked(best) && forall q :: 0 <= q < |best| ==> best[q].score == f(best[q].idx)
    ensures best[p].idx !in Front(best, p)
  {
    FrontHolds(best, p);
    hide Front;
    assert forall q :: 0 <= q < p ==> Outranks(best[q], best[p]) && best[q].idx != best[p].idx;
  }

  lemma {:induction false} FrontSize(f: Weight, best: seq<Scored>, p: nat)
    requires p <= |best| && Ranked(best) && forall q :: 0 <= q < |best| ==> best[q].score == f(best[q].idx)
    ensures |Front(best, p)| == p
  {
    if p > 0 {
      FrontSize(f, best, p - 1);
      FrontIsNew(f, best, p - 1);
      hide Ranked;
    }
  }

  lemma FrontIsTop(f: Weight, best: seq<Scored>, cand: set<nat>, chords: nat, spare: nat, p: nat, taken: set<nat>)
    requires TopK(f, best, cand, chords + spare) && p <= |best| && |taken| <= spare
    requires |Front(best, p) - taken| <= chords && (p < |best| ==> |Front(best, p) - taken| == chords)
    ensures IsTop(f, Front(best, p) - taken, cand - taken, chords)
  {
    var front, picked := Front(best, p), Front(best, p) - taken;
    FrontHolds(best, p);
    FrontSize(f, best, p);
    assert front == picked + front * taken;
    SubsetSize(front * taken, taken);
    assert |front| == |picked| + |front * taken|;
    forall c, x | c in picked && x in cand - taken && x !in picked ensures Beats(f, c, x) {
      var q :| 0 <= q < p && best[q].idx == c;
      WindowLoses(f, best, cand, chords + spare, p, x);
    }
    forall x | x in cand - taken && x !in picked ensures |picked| == chords {
      WindowLoses(f, best, cand, chords + spare, p, x);
    }
  }

  /** A candidate outside the first p places ranks below everything in them. */
  lemma WindowLoses(f: Weight, best: seq<Scored>, cand: set<nat>, k: nat, p: nat, x: nat)
    requires TopK(f, best, cand, k) && p <= |best| && x in cand && x !in Front(best, p)
    ensures forall q :: 0 <= q < p ==> Outranks(best[q], Scored(x, f(x)))
    ensures p == |best| ==> |best| == k
  {
    FrontHolds(best, p);
    if Holds(best, x) {
      var q :| 0 <= q < |best| && best[q].idx == x;
      assert q >= p;
    }
  }

  /** The chords of one agent: the best in the window that the ring does not already probe. */
  method PickChords(best: seq<Scored>, taken: set<nat>, chords: nat, ghost f: Weight, ghost cand: set<nat>,
                    ghost spare: nat)
    returns (picked: set<nat>)
    requires TopK(f, best, cand, chords + spare) && |taken| <= spare
    ensures IsTop(f, picked, cand - taken, chords)
  {
    hide TopK, IsTop;
    picked := {};
    ghost var p := 0;
    for i := 0 to |best|
      invariant p == i && picked == Front(best, p) - taken && |picked| <= chords
    {
      if |picked| == chords {
        break;
      }
      p := p + 1;
      if best[i].idx in taken {
        continue;
      }
      picked := picked + {best[i].idx};
    }
    FrontIsTop(f, best, cand, chords, spare, p, taken);
  }

  /** addChords for one agent: the bounded window with spare room for the ring's own peers gives
      exactly the top-ranked candidates the ring does not probe. */
  method ChordsOf(n: nat, cand: set<nat>, taken: set<nat>, f: Weight, chords: nat, spare: nat)
    returns (picked: set<nat>)
    requires (forall x :: x in cand ==> x < n) && |taken| <= spare
    ensures IsTop(f, picked, cand - taken, chords)
    ensures forall c, x :: c in picked && x in cand - taken - picked ==> f(c) > f(x) || (f(c) == f(x) && c < x)
    ensures picked <= cand - taken && (|picked| == chords || (|picked| < chords && picked == cand - taken))
  {
    if chords == 0 {
      return {};
    }
    var best := BestOf(n, cand, f, chords + spare);
    picked := PickChords(best, taken, chords, f, cand, spare);
  }
}
