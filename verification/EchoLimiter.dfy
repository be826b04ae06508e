/** The echo responder's token bucket per source, over a map that is swept when it is full. The
    reference is the same bucket over a map that is never swept. Time is in seconds. */
module EchoLimiter {
  import PathMtu

  const BURST := 256.0
  const RATE := 64.0
  const MAX_SOURCES := 4096
  const IDLE_FULL := 4.0
  const KEEP := MAX_SOURCES * 7 / 8
  const MAX_UDP_PACKETS := 100

  type Source = string

  datatype Bucket = Bucket(tokens: real, last: real)

  type Buckets = map<Source, Bucket>

  datatype Datagram = Datagram(src: Source, at: real)

  // ---- the bucket ----

  function Refilled(b: Bucket, now: real): real {
    var waited := if now > b.last then now - b.last else 0.0;
    var tokens := b.tokens + waited * RATE;
    if tokens < BURST then tokens else BURST
  }

  /** The tokens a datagram from src would find. */
  function Tokens(m: Buckets, src: Source, now: real): real {
    if src in m then Refilled(m[src], now) else BURST
  }

  predicate Allows(m: Buckets, d: Datagram) {
    Tokens(m, d.src, d.at) >= 1.0
  }

  /** The unbounded limiter: the map after one datagram. */
  function Spend(m: Buckets, d: Datagram): Buckets {
    var t := Tokens(m, d.src, d.at);
    m[d.src := Bucket(if t >= 1.0 then t - 1.0 else t, d.at)]
  }

  ghost predicate Sane(m: Buckets, now: real) {
    forall src :: src in m ==> 0.0 <= m[src].tokens <= BURST && m[src].last <= now
  }

  /** From now on no source can tell the two maps apart. */
  ghost predicate SameFrom(a: Buckets, b: Buckets, now: real) {
    forall src: Source, t: real :: t >= now ==> Tokens(a, src, t) == Tokens(b, src, t)
  }

  // ---- the sweep ----

  predicate Idle(b: Bucket, now: real) {
    now - b.last >= IDLE_FULL
  }

  function Busy(m: Buckets, now: real): set<Source> {
    set src | src in m && !Idle(m[src], now)
  }

  /** What evict may leave: idle buckets all go, and if every source is busy, arbitrary ones follow
      until fewer than KEEP are left. */
  ghost predicate SweptTo(m: Buckets, now: real, kept: Buckets) {
    && kept.Keys <= Busy(m, now)
    && (forall src :: src in kept ==> kept[src] == m[src])
    && |kept| == if |Busy(m, now)| < KEEP then |Busy(m, now)| else KEEP - 1
  }

  /** No choice the sweep can make is visible. */
  ghost predicate SafeToSweep(m: Buckets, now: real) {
    |Busy(m, now)| < KEEP || forall src :: src in Busy(m, now) ==> Refilled(m[src], now) == BURST
  }

  lemma FullForGood(b: Bucket, now: real, t: real)
    requires 0.0 <= b.tokens && b.last <= now <= t && Refilled(b, now) == BURST
    ensures Refilled(b, t) == BURST
  {
    assert (t - b.last) * RATE >= (now - b.last) * RATE;
  }

  lemma SweptSame(m: Buckets, now: real, kept: Buckets)
    requires Sane(m, now) && SweptTo(m, now, kept) && SafeToSweep(m, now)
    ensures SameFrom(m, kept, now)
  {
    forall src: Source, t: real | t >= now ensures Tokens(m, src, t) == Tokens(kept, src, t) {
      if src in m && src !in kept {
        if |Busy(m, now)| < KEEP {
          SameSizeSubset(kept.Keys, Busy(m, now));
          assert Idle(m[src], now);
        } else if src !in Busy(m, now) {
          assert Idle(m[src], now);
        }
        FullForGood(m[src], now, t);
      }
    }
  }

  lemma SameSizeSubset(a: set<Source>, b: set<Source>)
    requires a <= b && |a| == |b|
    ensures a == b
  {
    if x :| x in b && x !in a {
      assert |b - {x}| == |b| - 1;
      SubsetIsSmaller(a, b - {x});
    }
  }

  lemma {:induction false} SubsetIsSmaller(a: set<Source>, b: set<Source>)
    requires a <= b
    ensures |a| <= |b|
  {
    if x :| x in a {
      SubsetIsSmaller(a - {x}, b - {x});
    }
  }

  lemma {:induction false} PickSubset(s: set<Source>, n: nat) returns (r: set<Source>)
    requires n <= |s|
    ensures r <= s && |r| == n
  {
    if n == |s| {
      r := s;
    } else {
      var x :| x in s;
      r := PickSubset(s - {x}, n);
    }
  }

  /** The sweep is invisible whatever it drops exactly when fewer than KEEP sources are busy or every
      busy one has its bucket full again anyway. */
  lemma SweepIsInvisibleIff(m: Buckets, now: real)
    requires Sane(m, now)
    ensures SafeToSweep(m, now) <==> forall kept :: SweptTo(m, now, kept) ==> SameFrom(m, kept, now)
  {
    if SafeToSweep(m, now) {
      forall kept | SweptTo(m, now, kept) ensures SameFrom(m, kept, now) {
        SweptSame(m, now, kept);
      }
    } else {
      var busy := Busy(m, now);
      var src :| src in busy && Refilled(m[src], now) != BURST;
      var r := PickSubset(busy - {src}, KEEP - 1);
      var kept := map x | x in r :: m[x];
      assert kept.Keys == r;
      assert SweptTo(m, now, kept);
      assert Tokens(m, src, now) != Tokens(kept, src, now);
      assert !SameFrom(m, kept, now);
    }
  }

  // ---- runs ----

  /** The map the datagram finds, after the sweep it may cause. */
  ghost predicate Enters(m: Buckets, d: Datagram, from: Buckets) {
    if Sweeps(m, d) then SweptTo(m, d.at, from) else from == m
  }

  /** One datagram through the bounded limiter. */
  ghost predicate Step(m: Buckets, d: Datagram, m': Buckets, allowed: bool) {
    exists from :: Enters(m, d, from) && allowed == Allows(from, d) && m' == Spend(from, d)
  }

  predicate Sweeps(m: Buckets, d: Datagram) {
    d.src !in m && |m| >= MAX_SOURCES
  }

  ghost predicate Monotone(ds: seq<Datagram>) {
    forall i, j :: 0 <= i <= j < |ds| ==> ds[i].at <= ds[j].at
  }

  ghost predicate IsRun(ds: seq<Datagram>, states: seq<Buckets>, verdicts: seq<bool>) {
    && |states| == |ds| + 1 && |verdicts| == |ds| && states[0] == map[]
    && forall i :: 0 <= i < |ds| ==> Step(states[i], ds[i], states[i + 1], verdicts[i])
  }

  ghost predicate SafeSweeps(ds: seq<Datagram>, states: seq<Buckets>)
    requires |states| == |ds| + 1
  {
    forall i :: 0 <= i < |ds| && Sweeps(states[i], ds[i]) ==> SafeToSweep(states[i], ds[i].at)
  }

  /** The unbounded limiter's map after the first n datagrams. */
  ghost function Unbounded(ds: seq<Datagram>, n: nat): Buckets
    requires n <= |ds|
  {
    if n == 0 then map[] else Spend(Unbounded(ds, n - 1), ds[n - 1])
  }

  lemma SpendSane(m: Buckets, d: Datagram, now: real)
    requires Sane(m, now) && now <= d.at
    ensures Sane(Spend(m, d), d.at)
  {
    if d.src in m {
      assert (d.at - m[d.src].last) * RATE >= 0.0;
    }
  }

  lemma SpendSame(a: Buckets, b: Buckets, d: Datagram, now: real)
    requires SameFrom(a, b, now) && now <= d.at
    ensures Allows(a, d) == Allows(b, d) && SameFrom(Spend(a, d), Spend(b, d), d.at)
  {
    assert Tokens(a, d.src, d.at) == Tokens(b, d.src, d.at);
    forall src: Source, t: real | t >= d.at ensures Tokens(Spend(a, d), src, t) == Tokens(Spend(b, d), src, t) {
      if src != d.src {
        assert Tokens(a, src, t) == Tokens(b, src, t);
      }
    }
  }

  lemma StepSame(m: Buckets, u: Buckets, d: Datagram, m': Buckets, allowed: bool, now: real)
    requires Sane(m, now) && SameFrom(m, u, now) && now <= d.at && Step(m, d, m', allowed)
    requires Sweeps(m, d) ==> SafeToSweep(m, d.at)
    ensures Sane(m', d.at) && SameFrom(m', Spend(u, d), d.at) && allowed == Allows(u, d)
  {
    var from :| Enters(m, d, from) && allowed == Allows(from, d) && m' == Spend(from, d);
    assert Sane(m, d.at) && SameFrom(m, u, d.at);
    if Sweeps(m, d) {
      SweptSame(m, d.at, from);
      assert SameFrom(from, u, d.at) by {
        forall src: Source, t: real | t >= d.at ensures Tokens(from, src, t) == Tokens(u, src, t) {
          assert Tokens(from, src, t) == Tokens(m, src, t);
        }
      }
    }
    assert Sane(from, d.at);
    SpendSane(from, d, d.at);
    SpendSame(from, u, d, d.at);
  }

  lemma {:induction false} RunRefines(ds: seq<Datagram>, states: seq<Buckets>, verdicts: seq<bool>, n: nat)
    requires IsRun(ds, states, verdicts) && Monotone(ds) && SafeSweeps(ds, states) && n <= |ds|
    ensures n > 0 ==> Sane(states[n], ds[n - 1].at) && SameFrom(states[n], Unbounded(ds, n), ds[n - 1].at)
    ensures n > 0 ==> verdicts[n - 1] == Allows(Unbounded(ds, n - 1), ds[n - 1])
  {
    if n > 0 {
      RunRefines(ds, states, verdicts, n - 1);
      var now := if n > 1 then ds[n - 2].at else ds[0].at;
      StepSame(states[n - 1], Unbounded(ds, n - 1), ds[n - 1], states[n], verdicts[n - 1], now);
    }
  }

  /** Every datagram of every run gets the verdict the unbounded limiter gives it, as long as no sweep
      was visible. */
  lemma BoundedRefinesUnbounded(ds: seq<Datagram>, states: seq<Buckets>, verdicts: seq<bool>)
    requires IsRun(ds, states, verdicts) && Monotone(ds) && SafeSweeps(ds, states)
    ensures forall i :: 0 <= i < |ds| ==> verdicts[i] == Allows(Unbounded(ds, i), ds[i])
  {
    hide Step, SafeSweeps, SameFrom, Sane, Monotone;
    forall i | 0 <= i < |ds| ensures verdicts[i] == Allows(Unbounded(ds, i), ds[i]) {
      RunRefines(ds, states, verdicts, i + 1);
    }
  }

  /** The map never outgrows its bound, whatever the sweeps dropped. */
  lemma {:induction false} MapStaysBounded(ds: seq<Datagram>, states: seq<Buckets>, verdicts: seq<bool>, n: nat)
    requires IsRun(ds, states, verdicts) && n <= |ds|
    ensures |states[n]| <= MAX_SOURCES
  {
    if n > 0 {
      hide Step;
      MapStaysBounded(ds, states, verdicts, n - 1);
      StepStaysBounded(states[n - 1], ds[n - 1], states[n], verdicts[n - 1]);
    }
  }

  lemma StepStaysBounded(m: Buckets, d: Datagram, m': Buckets, allowed: bool)
    requires Step(m, d, m', allowed) && |m| <= MAX_SOURCES
    ensures |m'| <= MAX_SOURCES
  {
    var from :| Enters(m, d, from) && allowed == Allows(from, d) && m' == Spend(from, d);
    assert m'.Keys == from.Keys + {d.src};
  }

  // ---- what one source gets ----

  /** The replies src gets out of datagrams i to j-1. */
  ghost function Replies(ds: seq<Datagram>, src: Source, i: nat, j: nat): nat
    requires i <= j <= |ds|
  {
    if i == j then 0
    else Replies(ds, src, i, j - 1) + if ds[j - 1].src == src && Allows(Unbounded(ds, j - 1), ds[j - 1]) then 1 else 0
  }

  lemma {:induction false} UnboundedSane(ds: seq<Datagram>, n: nat)
    requires Monotone(ds) && 0 < n <= |ds|
    ensures Sane(Unbounded(ds, n), ds[n - 1].at)
  {
    if n > 1 {
      UnboundedSane(ds, n - 1);
      SpendSane(Unbounded(ds, n - 1), ds[n - 1], ds[n - 2].at);
    } else {
      SpendSane(map[], ds[0], ds[0].at);
    }
  }

  lemma RefillRate(m: Buckets, src: Source, now: real, later: real)
    requires Sane(m, now) && now <= later
    ensures Tokens(m, src, later) <= Tokens(m, src, now) + RATE * (later - now)
    ensures Tokens(m, src, later) <= BURST
  {
    assert RATE * (later - now) >= 0.0;
  }

  lemma {:induction false} WindowPotential(ds: seq<Datagram>, src: Source, i: nat, j: nat)
    requires Monotone(ds) && i < j <= |ds|
    ensures Replies(ds, src, i, j) as real + Tokens(Unbounded(ds, j), src, ds[j - 1].at)
         <= BURST + RATE * (ds[j - 1].at - ds[i].at)
  {
    var m, d := Unbounded(ds, j - 1), ds[j - 1];
    if j - 1 == i {
      if i > 0 {
        UnboundedSane(ds, i);
        RefillRate(m, src, ds[i - 1].at, d.at);
      }
      assert Replies(ds, src, i, i) == 0;
    } else {
      WindowPotential(ds, src, i, j - 1);
      UnboundedSane(ds, j - 1);
      RefillRate(m, src, ds[j - 2].at, d.at);
      assert RATE * (ds[j - 2].at - ds[i].at) + RATE * (d.at - ds[j - 2].at) == RATE * (d.at - ds[i].at);
    }
  }

  /** In any window of t seconds one source gets at most 256 + 64t replies. */
  lemma WindowBound(ds: seq<Datagram>, src: Source, i: nat, j: nat)
    requires Monotone(ds) && i < j <= |ds|
    ensures Replies(ds, src, i, j) as real <= BURST + RATE * (ds[j - 1].at - ds[i].at)
  {
    WindowPotential(ds, src, i, j);
    UnboundedSane(ds, j);
  }

  ghost function Asked(ds: seq<Datagram>, src: Source, n: nat): nat
    requires n <= |ds|
  {
    if n == 0 then 0 else Asked(ds, src, n - 1) + if ds[n - 1].src == src then 1 else 0
  }

  /** A sweep never takes a token away from anyone. */
  lemma SweepOnlyGives(m: Buckets, now: real, kept: Buckets, src: Source, t: real)
    requires SweptTo(m, now, kept)
    ensures Tokens(kept, src, t) >= Tokens(m, src, t)
  {
  }

  lemma StepLeaves(m: Buckets, d: Datagram, m': Buckets, allowed: bool, src: Source, t: real, least: real)
    requires Step(m, d, m', allowed) && least <= BURST
    requires Tokens(m, src, t) >= least && Tokens(m, src, d.at) >= least
    ensures Tokens(m', src, t) >= if d.src == src then least - 1.0 else least
  {
    var from :| Enters(m, d, from) && allowed == Allows(from, d) && m' == Spend(from, d);
    if Sweeps(m, d) {
      SweepOnlyGives(m, d.at, from, src, t);
      SweepOnlyGives(m, d.at, from, src, d.at);
    }
    assert d.src == src ==> m'[src].tokens >= least - 1.0;
  }

  /** Whatever the clock and the sweeps do, a source has what it did not ask for. */
  lemma {:induction false} TokensLeft(ds: seq<Datagram>, states: seq<Buckets>, verdicts: seq<bool>, src: Source,
                                      n: nat, t: real)
    requires IsRun(ds, states, verdicts) && n <= |ds|
    ensures Tokens(states[n], src, t) >= BURST - Asked(ds, src, n) as real
    decreases n
  {
    if n > 0 {
      TokensLeft(ds, states, verdicts, src, n - 1, t);
      TokensLeft(ds, states, verdicts, src, n - 1, ds[n - 1].at);
      hide Step, Tokens;
      StepLeaves(states[n - 1], ds[n - 1], states[n], verdicts[n - 1], src, t, BURST - Asked(ds, src, n - 1) as real);
    }
  }

  lemma StepAllows(m: Buckets, d: Datagram, m': Buckets, allowed: bool)
    requires Step(m, d, m', allowed) && Tokens(m, d.src, d.at) >= 1.0
    ensures allowed
  {
    var from :| Enters(m, d, from) && allowed == Allows(from, d) && m' == Spend(from, d);
    if Sweeps(m, d) {
      SweepOnlyGives(m, d.at, from, d.src, d.at);
    }
  }

  /** A source that sent no more than a pmtu search and two full udp probes is always answered, in every
      run: through a flood of other sources and a clock that steps back. */
  lemma ProbesAreAnswered(ds: seq<Datagram>, states: seq<Buckets>, verdicts: seq<bool>, i: nat)
    requires IsRun(ds, states, verdicts) && i < |ds|
    requires Asked(ds, ds[i].src, i + 1) <= PathMtu.MAX_SENDS + 2 * MAX_UDP_PACKETS
    ensures verdicts[i]
  {
    TokensLeft(ds, states, verdicts, ds[i].src, i, ds[i].at);
    hide Step, Tokens;
    StepAllows(states[i], ds[i], states[i + 1], verdicts[i]);
  }

  /** The replies src got in a run of the bounded limiter. */
  ghost function Granted(ds: seq<Datagram>, verdicts: seq<bool>, src: Source, i: nat, j: nat): nat
    requires i <= j <= |ds| == |verdicts|
  {
    if i == j then 0
    else Granted(ds, verdicts, src, i, j - 1) + if ds[j - 1].src == src && verdicts[j - 1] then 1 else 0
  }

  lemma {:induction false} GrantedIsReplies(ds: seq<Datagram>, verdicts: seq<bool>, src: Source, i: nat, j: nat)
    requires i <= j <= |ds| == |verdicts|
    requires forall k :: 0 <= k < |ds| ==> verdicts[k] == Allows(Unbounded(ds, k), ds[k])
    ensures Granted(ds, verdicts, src, i, j) == Replies(ds, src, i, j)
  {
    hide Allows, Unbounded;
    if i < j {
      assert verdicts[j - 1] == Allows(Unbounded(ds, j - 1), ds[j - 1]);
      GrantedIsReplies(ds, verdicts, src, i, j - 1);
    }
  }

  /** The bounded limiter itself: an answer for every real probe in every run, and the reply cap of any
      window while the clock is monotone and no sweep was visible. */
  lemma LimiterGuarantees(ds: seq<Datagram>, states: seq<Buckets>, verdicts: seq<bool>, src: Source, i: nat, j: nat)
    requires IsRun(ds, states, verdicts) && i < j <= |ds|
    ensures Asked(ds, ds[i].src, i + 1) <= PathMtu.MAX_SENDS + 2 * MAX_UDP_PACKETS ==> verdicts[i]
    ensures Monotone(ds) && SafeSweeps(ds, states) ==>
      Granted(ds, verdicts, src, i, j) as real <= BURST + RATE * (ds[j - 1].at - ds[i].at)
  {
    hide Step, SafeSweeps, Allows, Asked, Monotone;
    if Asked(ds, ds[i].src, i + 1) <= PathMtu.MAX_SENDS + 2 * MAX_UDP_PACKETS {
      ProbesAreAnswered(ds, states, verdicts, i);
    }
    if Monotone(ds) && SafeSweeps(ds, states) {
      BoundedRefinesUnbounded(ds, states, verdicts);
      GrantedIsReplies(ds, verdicts, src, i, j);
      WindowBound(ds, src, i, j);
    }
  }

  // ---- when a datagram is refused ----

  /** The bound on what src may have been sent between datagram k and the time t. */
  ghost function Window(ds: seq<Datagram>, k: nat, t: real): real
    requires k < |ds|
  {
    BURST + RATE * (t - ds[k].at)
  }

  /** A full bucket, or at least what some window leaves of its bound. */
  ghost predicate KeepsUp(ds: seq<Datagram>, verdicts: seq<bool>, src: Source, n: nat, t: real, tokens: real)
    requires n <= |ds| == |verdicts|
  {
    tokens == BURST ||
    exists k: nat :: k < n && tokens + Granted(ds, verdicts, src, k, n) as real >= Window(ds, k, t)
  }

  lemma RefillsAtLeast(b: Bucket, t: real)
    ensures Refilled(b, t) == BURST || Refilled(b, t) >= b.tokens + RATE * (t - b.last)
  {
    if t < b.last {
      assert RATE * (t - b.last) <= 0.0;
    }
  }

  lemma {:induction false} TokensKeepUp(ds: seq<Datagram>, states: seq<Buckets>, verdicts: seq<bool>, src: Source,
                                        n: nat, t: real)
    requires IsRun(ds, states, verdicts) && n <= |ds|
    ensures KeepsUp(ds, verdicts, src, n, t, Tokens(states[n], src, t))
    decreases n
  {
    if n > 0 {
      TokensKeepUp(ds, states, verdicts, src, n - 1, t);
      TokensKeepUp(ds, states, verdicts, src, n - 1, ds[n - 1].at);
      StepKeepsUp(ds, states[n - 1], states[n], verdicts, src, n, t);
    }
  }

  lemma StepKeepsUp(ds: seq<Datagram>, m: Buckets, m': Buckets, verdicts: seq<bool>, src: Source, n: nat, t: real)
    requires 0 < n <= |ds| == |verdicts| && Step(m, ds[n - 1], m', verdicts[n - 1])
    requires KeepsUp(ds, verdicts, src, n - 1, t, Tokens(m, src, t))
    requires KeepsUp(ds, verdicts, src, n - 1, ds[n - 1].at, Tokens(m, src, ds[n - 1].at))
    ensures KeepsUp(ds, verdicts, src, n, t, Tokens(m', src, t))
  {
    var d := ds[n - 1];
    var from :| Enters(m, d, from) && verdicts[n - 1] == Allows(from, d) && m' == Spend(from, d);
    if d.src != src {
      if src in from {
        assert Tokens(m', src, t) == Tokens(m, src, t);
        OthersKeepUp(ds, verdicts, src, n, t, Tokens(m, src, t));
      }
    } else {
      RefillsAtLeast(m'[src], t);
      var found := Tokens(from, src, d.at);
      assert found == BURST || found == Tokens(m, src, d.at);
      SpendingKeepsUp(ds, verdicts, src, n, t, found, Tokens(m', src, t));
    }
  }

  lemma OthersKeepUp(ds: seq<Datagram>, verdicts: seq<bool>, src: Source, n: nat, t: real, tokens: real)
    requires 0 < n <= |ds| == |verdicts| && ds[n - 1].src != src
    requires KeepsUp(ds, verdicts, src, n - 1, t, tokens)
    ensures KeepsUp(ds, verdicts, src, n, t, tokens)
  {
    if tokens != BURST {
      var k: nat :| k < n - 1 && tokens + Granted(ds, verdicts, src, k, n - 1) as real >= Window(ds, k, t);
      assert Granted(ds, verdicts, src, k, n) == Granted(ds, verdicts, src, k, n - 1);
    }
  }

  lemma SpendingKeepsUp(ds: seq<Datagram>, verdicts: seq<bool>, src: Source, n: nat, t: real, found: real, left: real)
    requires 0 < n <= |ds| == |verdicts| && ds[n - 1].src == src
    requires KeepsUp(ds, verdicts, src, n - 1, ds[n - 1].at, found)
    requires left == BURST || left >= found - (if verdicts[n - 1] then 1.0 else 0.0) + RATE * (t - ds[n - 1].at)
    ensures KeepsUp(ds, verdicts, src, n, t, left)
  {
    if left != BURST {
      if found == BURST {
        assert Granted(ds, verdicts, src, n - 1, n - 1) == 0;
        assert left + Granted(ds, verdicts, src, n - 1, n) as real >= Window(ds, n - 1, t);
      } else {
        var d := ds[n - 1];
        var k: nat :| k < n - 1 && found + Granted(ds, verdicts, src, k, n - 1) as real >= Window(ds, k, d.at);
        assert Window(ds, k, d.at) + RATE * (t - d.at) == Window(ds, k, t);
        assert left + Granted(ds, verdicts, src, k, n) as real >= Window(ds, k, t);
      }
    }
  }

  /** Answering datagram j would bring no window of its source above the bound. */
  ghost predicate WithinEveryWindow(ds: seq<Datagram>, verdicts: seq<bool>, j: nat)
    requires j < |ds| == |verdicts|
  {
    forall k: nat :: k <= j ==> Granted(ds, verdicts, ds[j].src, k, j) as real + 1.0 <= Window(ds, k, ds[j].at)
  }

  /** In every run, whatever the clock and the sweeps do, a datagram is refused only when answering it
      would bring some window of its source above 256 + 64t. */
  lemma RefusedOnlyAtTheCap(ds: seq<Datagram>, states: seq<Buckets>, verdicts: seq<bool>, j: nat)
    requires IsRun(ds, states, verdicts) && j < |ds|
    ensures WithinEveryWindow(ds, verdicts, j) ==> verdicts[j]
  {
    var tokens := Tokens(states[j], ds[j].src, ds[j].at);
    TokensKeepUp(ds, states, verdicts, ds[j].src, j, ds[j].at);
    if WithinEveryWindow(ds, verdicts, j) {
      hide Tokens, Step;
      assert tokens >= 1.0;
      StepAllows(states[j], ds[j], states[j + 1], verdicts[j]);
    }
  }

  /** The limiter needs no other description: while the clock is monotone and no sweep was visible, a
      datagram is answered if and only if no window of its source goes above the bound. */
  lemma AnsweredIff(ds: seq<Datagram>, states: seq<Buckets>, verdicts: seq<bool>, j: nat)
    requires IsRun(ds, states, verdicts) && j < |ds| && Monotone(ds) && SafeSweeps(ds, states)
    ensures verdicts[j] <==> WithinEveryWindow(ds, verdicts, j)
  {
    RefusedOnlyAtTheCap(ds, states, verdicts, j);
    if verdicts[j] {
      forall k: nat | k <= j
        ensures Granted(ds, verdicts, ds[j].src, k, j) as real + 1.0 <= Window(ds, k, ds[j].at)
      {
        hide Step, SafeSweeps, Monotone;
        LimiterGuarantees(ds, states, verdicts, ds[j].src, k, j + 1);
        assert Granted(ds, verdicts, ds[j].src, k, j + 1) == Granted(ds, verdicts, ds[j].src, k, j) + 1;
      }
    }
  }

  // ---- the limiter itself ----

  class EchoLimiter {
    var buckets: Buckets

    constructor ()
      ensures buckets == map[]
    {
      buckets := map[];
    }

    /** evict: one pass over the map for the idle buckets, another for whatever has to follow. */
    method Evict(now: real)
      modifies this
      ensures SweptTo(old(buckets), now, buckets)
      ensures forall src :: src in buckets ==>
        src in old(buckets) && buckets[src] == old(buckets)[src] && now - buckets[src].last < 4.0
      ensures |buckets| < 3584
      ensures |buckets| < 3583 ==>
        forall src :: src in old(buckets) && now - old(buckets)[src].last < 4.0 ==> src in buckets
    {
      ghost var before := buckets;
      var todo := buckets.Keys;
      while todo != {}
        invariant todo <= buckets.Keys <= before.Keys
        invariant forall src :: src in buckets ==> buckets[src] == before[src]
        invariant forall src :: src in before ==> (src in buckets <==> src in todo || !Idle(before[src], now))
        decreases todo
      {
        var src :| src in todo;
        todo := todo - {src};
        if Idle(buckets[src], now) {
          buckets := buckets - {src};
        }
      }
      assert buckets.Keys == Busy(before, now);
      todo := buckets.Keys;
      while todo != {} && |buckets| >= KEEP
        invariant todo <= buckets.Keys <= Busy(before, now)
        invariant forall src :: src in buckets ==> buckets[src] == before[src]
        invariant |buckets| >= KEEP ==> todo == buckets.Keys
        invariant if |Busy(before, now)| < KEEP then buckets.Keys == Busy(before, now) else |buckets.Keys| >= KEEP - 1
        decreases todo
      {
        var src :| src in todo;
        todo := todo - {src};
        ghost var keys := buckets.Keys;
        buckets := buckets - {src};
        assert buckets.Keys == keys - {src};
      }
    }

    /** allow: it spends one token of the source's bucket and reports whether there was one. */
    method Allow(d: Datagram) returns (allowed: bool)
      requires |buckets| <= MAX_SOURCES
      modifies this
      ensures Step(old(buckets), d, buckets, allowed)
      ensures |buckets| <= MAX_SOURCES
      ensures d.src in old(buckets) || |old(buckets)| < 4096 ==> buckets - {d.src} == old(buckets) - {d.src}
    {
      var tokens := BURST;
      if d.src in buckets {
        var b := buckets[d.src];
        var waited := if d.at - b.last > 0.0 then d.at - b.last else 0.0;
        tokens := if b.tokens + waited * RATE < BURST then b.tokens + waited * RATE else BURST;
      } else if |buckets| >= MAX_SOURCES {
        Evict(d.at);
      }
      ghost var from := buckets;
      allowed := tokens >= 1.0;
      if allowed {
        tokens := tokens - 1.0;
      }
      buckets := buckets[d.src := Bucket(tokens, d.at)];
      assert buckets == Spend(from, d);
      assert buckets.Keys == from.Keys + {d.src};
    }
  }
}
