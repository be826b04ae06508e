/** The path-MTU search: a bisection with retries, a confirmation phase and a time reserve, run
    against an arbitrary path. The path, the context and the clock are functions of everything sent
    so far, so every property below holds for every behaviour they can show. */
module PathMtu {

  const BASE_SIZE := 64
  const MAX_STEPS := 16
  const ATTEMPTS := 2
  const CONFIRM_SENDS := 2
  const MIN_SIZE := 576
  const MAX_IP_SIZE := 65535
  const MAX_SENDS := 2 * ATTEMPTS + MAX_STEPS + CONFIRM_SENDS

  /** How one datagram ended. TooBig carries the number the refusal came with (0: none); Stopped is a
      broken socket or an ended context. */
  datatype Answer = Echoed | Lost | TooBig(mtu: int) | Stopped

  datatype Exchange = Exchange(size: int, answer: Answer)

  /** The world: the answer to the next datagram, whether the context has ended, and the time, each
      as a function of the exchanges so far. */
  datatype Env = Env(
    path: (seq<Exchange>, int) -> Answer,
    cancelled: seq<Exchange> -> bool,
    clock: seq<Exchange> -> int)

  datatype Verdict = Ok | Reduced | Blackhole | Unreachable

  /** Why the verdict is Unreachable. */
  datatype Reason = None | BaseLost | StoppedEarly | OutOfTime | AllLost | NotRepeated

  datatype Details = Details(verdict: Verdict, pathMtu: int, probeMtu: int, steps: nat, truncated: bool, reason: Reason)

  function NoVerdict(d: Details, reason: Reason): Details {
    d.(verdict := Unreachable, pathMtu := 0, reason := reason)
  }

  /** A router's number counts when it lies strictly between the base datagram and the probe. */
  predicate Usable(probeMtu: int, mtu: int) {
    BASE_SIZE < mtu < probeMtu
  }

  /** What the host knows of its own MTU towards the peer. */
  datatype Device = Device(mtu: int) | Unreadable

  datatype Probed = Probed(size: int) | NoSize

  /** The size the checker probes: the configured size or, without one, the route's, never above the
      route's, within what one IPv4 datagram can be (section 3.1 of RFC 791). */
  function ProbeSize(configured: int, device: Device): (r: Probed)
    ensures r.NoSize? <==> configured == 0 && device.Unreadable?
    ensures r.Probed? ==> MIN_SIZE <= r.size <= MAX_IP_SIZE
    ensures r.Probed? && device.Device? && MIN_SIZE <= device.mtu ==> r.size <= device.mtu
    ensures MIN_SIZE <= configured <= MAX_IP_SIZE && (device.Device? ==> configured <= device.mtu) ==>
      r == Probed(configured)
    ensures configured == 0 && device.Device? && MIN_SIZE <= device.mtu <= MAX_IP_SIZE ==> r == Probed(device.mtu)
  {
    if device.Unreadable? && configured == 0 then NoSize
    else
      var size := if device.Device? && (configured == 0 || configured > device.mtu) then device.mtu else configured;
      var atLeast := if size < MIN_SIZE then MIN_SIZE else size;
      Probed(if atLeast > MAX_IP_SIZE then MAX_IP_SIZE else atLeast)
  }

  // ---- what a trace says ----

  /** Every exchange went out under a live context and carries the path's own answer. */
  ghost predicate Faithful(env: Env, sent: seq<Exchange>) {
    sent != [] ==>
      var before, last := sent[..|sent| - 1], sent[|sent| - 1];
      Faithful(env, before) && !env.cancelled(before) && last.answer == env.path(before, last.size)
  }

  ghost predicate NoRefusal(sent: seq<Exchange>) {
    forall i :: 0 <= i < |sent| ==> !sent[i].answer.TooBig?
  }

  ghost function Times(sent: seq<Exchange>, size: int, answer: Answer): nat {
    multiset(sent)[Exchange(size, answer)]
  }

  lemma TimesAppend(sent: seq<Exchange>, e: Exchange, size: int, answer: Answer)
    ensures Times(sent + [e], size, answer) == Times(sent, size, answer) + if e == Exchange(size, answer) then 1 else 0
  {
  }

  ghost predicate SendsWithin(env: Env, timeout: int) {
    timeout >= 0 && forall h: seq<Exchange>, e: Exchange :: env.clock(h + [e]) <= env.clock(h) + timeout
  }

  ghost predicate NeverCancelled(env: Env) {
    forall h: seq<Exchange> :: !env.cancelled(h)
  }

  /** The path carries every size up to t and silently drops every larger one. */
  ghost predicate SilentAbove(env: Env, t: int) {
    forall h: seq<Exchange>, s: int :: env.path(h, s) == if s <= t then Echoed else Lost
  }

  /** The path carries every size up to t and refuses every larger one without a usable number. */
  ghost predicate MuteRefusalAbove(env: Env, t: int, probeMtu: int) {
    forall h: seq<Exchange>, s: int ::
      if s <= t then env.path(h, s) == Echoed
      else env.path(h, s).TooBig? && !Usable(probeMtu, env.path(h, s).mtu)
  }

  /** The path carries every size up to t and refuses every larger one with the number t. */
  ghost predicate NumberedRefusalAbove(env: Env, t: int) {
    forall h: seq<Exchange>, s: int :: env.path(h, s) == if s <= t then Echoed else TooBig(t)
  }

  /** The verdict is backed by what crossed, was lost and was refused. */
  ghost predicate Sound(d: Details, sent: seq<Exchange>) {
    match d.verdict
    case Ok =>
      d.pathMtu == d.probeMtu && Exchange(d.probeMtu, Echoed) in sent
    case Reduced =>
      && d.pathMtu < d.probeMtu && (d.truncated ==> BASE_SIZE < d.pathMtu)
      && !NoRefusal(sent)
      && ( || (Usable(d.probeMtu, d.pathMtu) && exists i :: 0 <= i < |sent| && sent[i].answer == TooBig(d.pathMtu))
           || Exchange(d.pathMtu, Echoed) in sent)
    case Blackhole =>
      && BASE_SIZE < d.pathMtu < d.probeMtu
      && NoRefusal(sent)
      && Times(sent, d.probeMtu, Lost) == ATTEMPTS + 1 && OnlyLost(sent, d.probeMtu)
      && Times(sent, d.pathMtu, Echoed) >= 2
    case Unreachable =>
      d.pathMtu == 0 && d.reason != None
  }

  /** An Unreachable verdict names what happened. */
  ghost predicate ReasonHolds(env: Env, d: Details, sent: seq<Exchange>) {
    match d.reason
    case None => d.verdict != Unreachable
    case BaseLost => sent == [Exchange(BASE_SIZE, Lost), Exchange(BASE_SIZE, Lost)]
    case StoppedEarly => env.cancelled(sent) || (sent != [] && Surprise(sent, sent[|sent| - 1]))
    case OutOfTime => d.truncated && Failed(sent, d.probeMtu) && NothingCrossed(sent)
    case AllLost => NoneAbove(sent, BASE_SIZE) && (d.probeMtu <= MAX_IP_SIZE ==> Failed(sent, BASE_SIZE + 1))
    case NotRepeated => sent != [] && sent[|sent| - 1].answer == Lost && Exchange(sent[|sent| - 1].size, Echoed) in sent
  }

  /** A broken socket, or a refusal of the base or of a size that already crossed. */
  ghost predicate Surprise(sent: seq<Exchange>, e: Exchange) {
    e.answer == Stopped || (e.answer.TooBig? && (e.size == BASE_SIZE || Exchange(e.size, Echoed) in sent))
  }

  ghost predicate SizesWithin(probeMtu: int, sent: seq<Exchange>) {
    forall i :: 0 <= i < |sent| ==> BASE_SIZE <= sent[i].size <= probeMtu
  }

  /** Every datagram of this size was lost. */
  ghost predicate OnlyLost(sent: seq<Exchange>, size: int) {
    forall i :: 0 <= i < |sent| && sent[i].size == size ==> sent[i].answer == Lost
  }

  ghost predicate NoneAbove(sent: seq<Exchange>, size: int) {
    forall i :: 0 <= i < |sent| && sent[i].size > size ==> sent[i].answer == Lost
  }

  /** Nothing above the base size came back. */
  ghost predicate NothingCrossed(sent: seq<Exchange>) {
    forall i :: 0 <= i < |sent| && sent[i].size > BASE_SIZE ==> sent[i].answer != Echoed
  }

  /** A datagram of this size did not cross. */
  ghost predicate Failed(sent: seq<Exchange>, size: int) {
    exists i :: 0 <= i < |sent| && sent[i].size == size && (sent[i].answer.Lost? || sent[i].answer.TooBig?)
  }

  /** An untruncated search that names a size no router named also saw the next byte fail. */
  ghost predicate Tight(d: Details, sent: seq<Exchange>) {
    d.verdict in {Reduced, Blackhole} && !d.truncated && d.probeMtu <= MAX_IP_SIZE ==>
      || (exists i :: 0 <= i < |sent| && sent[i].answer == TooBig(d.pathMtu) && Usable(d.probeMtu, d.pathMtu))
      || Failed(sent, d.pathMtu + 1)
  }

  /** A usable number ends the search and is its result, unless the size it refuses is one that crossed. */
  ghost predicate HeedsNumbers(d: Details, sent: seq<Exchange>) {
    forall i :: 0 <= i < |sent| && sent[i].answer.TooBig? && Usable(d.probeMtu, sent[i].answer.mtu) ==>
      i == |sent| - 1 && ((d.verdict == Reduced && d.pathMtu == sent[i].answer.mtu) || Surprise(sent, sent[i]))
  }

  /** No usable number so far. */
  ghost predicate NoNumber(probeMtu: int, sent: seq<Exchange>) {
    forall i :: 0 <= i < |sent| && sent[i].answer.TooBig? ==> !Usable(probeMtu, sent[i].answer.mtu)
  }

  /** Everything the trace has to show for the details the search returns. */
  ghost predicate Explained(env: Env, d: Details, sent: seq<Exchange>) {
    && Faithful(env, sent)
    && d.steps == |sent| && SizesWithin(d.probeMtu, sent)
    && Sound(d, sent) && ReasonHolds(env, d, sent) && Tight(d, sent) && HeedsNumbers(d, sent)
    && (d.verdict == Ok <==> Exchange(d.probeMtu, Echoed) in sent)
  }

  // ---- the search ----

  /** One size, tried until something other than a loss comes back, at most attempts times. */
  ghost predicate Tried(env: Env, size: int, attempts: nat, sent: seq<Exchange>, r: Answer, sent': seq<Exchange>) {
    && sent <= sent' && |sent'| <= |sent| + attempts
    && (forall i :: |sent| <= i < |sent'| ==> sent'[i].size == size)
    && (forall i :: |sent| <= i < |sent'| - 1 ==> sent'[i].answer == Lost)
    && (if |sent'| > |sent| && sent'[|sent'| - 1].answer != Lost then
          r == sent'[|sent'| - 1].answer
        else if |sent'| < |sent| + attempts then
          r == Stopped && env.cancelled(sent')
        else
          r == if attempts == 0 then Echoed else Lost)
  }

  lemma FaithfulExtends(env: Env, sent: seq<Exchange>, size: int)
    requires Faithful(env, sent) && !env.cancelled(sent)
    ensures Faithful(env, sent + [Exchange(size, env.path(sent, size))])
  {
    assert (sent + [Exchange(size, env.path(sent, size))])[..|sent|] == sent;
  }

  method Send(env: Env, size: int, attempts: nat, sent: seq<Exchange>) returns (r: Answer, sent': seq<Exchange>)
    requires Faithful(env, sent)
    ensures Faithful(env, sent')
    ensures Tried(env, size, attempts, sent, r, sent')
  {
    hide Faithful;
    r, sent' := Echoed, sent;
    for i := 0 to attempts
      invariant |sent'| == |sent| + i && sent <= sent'
      invariant forall j :: |sent| <= j < |sent'| ==> sent'[j] == Exchange(size, Lost)
      invariant r == if i == 0 then Echoed else Lost
      invariant Faithful(env, sent')
    {
      if env.cancelled(sent') {
        return Stopped, sent';
      }
      r := env.path(sent', size);
      FaithfulExtends(env, sent', size);
      sent' := sent' + [Exchange(size, r)];
      if r != Lost {
        return;
      }
    }
  }

  /** A single attempt, as the bisection and the confirmation send. */
  method SendOnce(env: Env, size: int, sent: seq<Exchange>) returns (r: Answer, sent': seq<Exchange>)
    requires Faithful(env, sent)
    ensures Faithful(env, sent')
    ensures if sent' == sent then r == Stopped && env.cancelled(sent)
      else sent' == sent + [Exchange(size, r)] && r == env.path(sent, size)
  {
    r, sent' := Send(env, size, 1, sent);
    if |sent'| == |sent| {
      assert sent' == sent;
    } else {
      assert sent' == sent + [Exchange(size, r)];
      assert sent'[..|sent|] == sent;
    }
  }

  /** What two attempts at one size leave: nothing lost, one loss, or two. */
  ghost predicate TriedTwice(env: Env, size: int, sent: seq<Exchange>, r: Answer, sent': seq<Exchange>) {
    var lost := Exchange(size, Lost);
    || (r == Stopped && env.cancelled(sent') && (sent' == sent || sent' == sent + [lost]))
    || (r != Lost && sent' == sent + [Exchange(size, r)])
    || sent' == sent + [lost] + [Exchange(size, r)]
  }

  /** Two attempts, as the base and the full size go out. */
  method SendTwice(env: Env, size: int, sent: seq<Exchange>) returns (r: Answer, sent': seq<Exchange>)
    requires Faithful(env, sent)
    ensures Faithful(env, sent') && TriedTwice(env, size, sent, r, sent')
  {
    hide Faithful;
    r, sent' := Send(env, size, ATTEMPTS, sent);
    assert sent' == sent + sent'[|sent|..];
    if |sent'| == |sent| + 2 {
      assert sent' == sent + [Exchange(size, Lost)] + [Exchange(size, r)];
    } else if |sent'| == |sent| + 1 {
      assert sent' == sent + [Exchange(size, sent'[|sent|].answer)];
    } else {
      assert sent' == sent;
    }
  }

  /** The time a step and the confirmation need. */
  function Reserve(timeout: int): int {
    (1 + CONFIRM_SENDS) * timeout
  }

  ghost function Pow2(n: nat): nat {
    if n == 0 then 1 else 2 * Pow2(n - 1)
  }

  /** Where the bisection stopped: lo crossed, hi did not; end is Echoed when it ran its course. */
  datatype Bisected = Bisected(lo: int, hi: int, refused: bool, truncated: bool, end: Answer)

  /** The bracket the bisection keeps: lo crossed, hi did not, every size sent since from lies
      strictly between the base and the probe, and end says how the last step ended. */
  ghost predicate Bracketed(env: Env, probeMtu: int, sent: seq<Exchange>, from: nat, b: Bisected) {
    && from <= |sent|
    && Exchange(b.lo, Echoed) in sent && BASE_SIZE <= b.lo
    && Failed(sent, b.hi) && b.hi <= probeMtu
    && (BASE_SIZE < probeMtu ==> b.lo < b.hi)
    && (forall i :: from <= i < |sent| ==> BASE_SIZE < sent[i].size < probeMtu)
    && (b.lo != BASE_SIZE ==> from < |sent|)
    && (b.lo == BASE_SIZE ==> forall i :: from <= i < |sent| ==> sent[i].answer != Echoed)
    && (b.refused <==> !NoRefusal(sent))
    && (b.end == Echoed ==> forall i :: from <= i < |sent| ==> sent[i].answer != Stopped)
    && (forall i :: from <= i < |sent| && sent[i].answer.TooBig? && Usable(probeMtu, sent[i].answer.mtu) ==>
      i == |sent| - 1 && b.end == sent[i].answer)
    && (b.end != Echoed ==>
      (b.end == Stopped && env.cancelled(sent)) || (from < |sent| && sent[|sent| - 1].answer == b.end))
  }

  /** Every datagram since from went out with the reserve still ahead of the deadline. */
  ghost predicate InTime(env: Env, reserve: int, deadline: int, sent: seq<Exchange>, from: nat) {
    forall i :: from <= i < |sent| ==> env.clock(sent[..i]) + reserve <= deadline
  }

  lemma InTimeExtends(env: Env, reserve: int, deadline: int, sent: seq<Exchange>, sent': seq<Exchange>, from: nat)
    requires InTime(env, reserve, deadline, sent, from)
    requires
      || sent' == sent
      || (|sent'| == |sent| + 1 && sent'[..|sent|] == sent && env.clock(sent) + reserve <= deadline)
    ensures InTime(env, reserve, deadline, sent', from)
  {
    assert forall i :: 0 <= i <= |sent| ==> sent'[..i] == sent[..i];
    assert sent[..|sent|] == sent;
  }

  /** One step's answer applied to the bracket. */
  function Narrowed(probeMtu: int, b: Bisected, e: Exchange): Bisected {
    match e.answer
    case Echoed => b.(lo := e.size)
    case Lost => b.(hi := e.size)
    case Stopped => b.(end := Stopped)
    case TooBig(mtu) =>
      if Usable(probeMtu, mtu) then b.(refused := true, end := e.answer) else b.(refused := true, hi := e.size)
  }

  lemma BracketExtends(env: Env, probeMtu: int, sent: seq<Exchange>, from: nat, b: Bisected, e: Exchange)
    requires Bracketed(env, probeMtu, sent, from, b) && b.end == Echoed
    requires b.lo < e.size < b.hi
    ensures Bracketed(env, probeMtu, sent + [e], from, Narrowed(probeMtu, b, e))
  {
    var longer, b' := sent + [e], Narrowed(probeMtu, b, e);
    assert longer[|sent|] == e && forall i :: 0 <= i < |sent| ==> longer[i] == sent[i];
    assert Failed(longer, b'.hi);
    assert b'.refused <==> !NoRefusal(longer);
  }

  /** One halving. It goes out only while it and the confirmation still fit before the deadline. */
  method Halve(env: Env, probeMtu: int, timeout: int, deadline: int, b: Bisected, sent: seq<Exchange>, ghost from: nat)
    returns (b': Bisected, sent': seq<Exchange>)
    requires Faithful(env, sent) && Bracketed(env, probeMtu, sent, from, b)
    requires b.end == Echoed && !b.truncated && b.hi - b.lo > 1
    ensures Faithful(env, sent') && Bracketed(env, probeMtu, sent', from, b')
    ensures sent' == sent || (|sent'| == |sent| + 1 && sent'[..|sent|] == sent)
    ensures !b'.end.Lost? && (b'.end.TooBig? ==> Usable(probeMtu, b'.end.mtu))
    ensures b'.truncated ==> b' == b.(truncated := true)
    ensures !b'.truncated && b'.end == Echoed ==> 0 < 2 * (b'.hi - b'.lo) <= b.hi - b.lo + 1
    ensures |sent'| > |sent| ==> env.clock(sent) + Reserve(timeout) <= deadline
    ensures b'.truncated ==> sent' == sent && env.clock(sent) + Reserve(timeout) > deadline
  {
    hide Faithful, Failed, NoRefusal;
    sent' := sent;
    var reserve := Reserve(timeout);
    if env.clock(sent) + reserve > deadline {
      return b.(truncated := true), sent';
    }
    var mid := b.lo + (b.hi - b.lo) / 2;
    var r;
    r, sent' := SendOnce(env, mid, sent);
    if sent' == sent {
      b' := b.(end := Stopped);
    } else {
      BracketExtends(env, probeMtu, sent, from, b, Exchange(mid, r));
      b' := Narrowed(probeMtu, b, Exchange(mid, r));
    }
  }

  lemma WidestInterval()
    ensures MAX_IP_SIZE - BASE_SIZE <= Pow2(MAX_STEPS)
  {
    assert Pow2(4) == 16 && Pow2(8) == 256 && Pow2(12) == 4096 && Pow2(16) == 65536;
  }

  lemma HalvingBound(width: int, next: int, left: nat)
    requires left > 0 && width <= Pow2(left) && 2 * next <= width + 1
    ensures next <= Pow2(left - 1)
  {
  }

  lemma InTimeEmpty(env: Env, reserve: int, deadline: int, sent: seq<Exchange>)
    ensures InTime(env, reserve, deadline, sent, |sent|)
  {
  }

  lemma BracketLo(env: Env, probeMtu: int, sent: seq<Exchange>, from: nat, b: Bisected)
    requires Bracketed(env, probeMtu, sent, from, b)
    ensures b.lo != BASE_SIZE ==> from < |sent|
    ensures BASE_SIZE < probeMtu ==> b.lo < b.hi
  {
  }

  lemma BracketStarts(env: Env, probeMtu: int, refused: bool, sent: seq<Exchange>)
    requires Exchange(BASE_SIZE, Echoed) in sent && Failed(sent, probeMtu) && (refused <==> !NoRefusal(sent))
    ensures Bracketed(env, probeMtu, sent, |sent|, Bisected(BASE_SIZE, probeMtu, refused, false, Echoed))
  {
  }

  /** The bisection of run. */
  method Bisect(env: Env, probeMtu: int, timeout: int, deadline: int, refusedBefore: bool, sent: seq<Exchange>)
    returns (b: Bisected, sent': seq<Exchange>)
    requires Faithful(env, sent)
    requires Exchange(BASE_SIZE, Echoed) in sent && Failed(sent, probeMtu)
    requires refusedBefore <==> !NoRefusal(sent)
    ensures Faithful(env, sent') && sent <= sent' && |sent'| <= |sent| + MAX_STEPS
    ensures Bracketed(env, probeMtu, sent', |sent|, b)
    ensures !b.end.Lost? && (b.end.TooBig? ==> Usable(probeMtu, b.end.mtu))
    ensures !b.truncated && b.end == Echoed && BASE_SIZE < probeMtu <= MAX_IP_SIZE ==> b.hi == b.lo + 1
    ensures InTime(env, Reserve(timeout), deadline, sent', |sent|)
    ensures b.truncated ==> |sent'| < |sent| + MAX_STEPS && env.clock(sent') + Reserve(timeout) > deadline
  {
    hide Faithful, Failed, NoRefusal, Bracketed, InTime, Pow2, Reserve, Usable;
    b := Bisected(BASE_SIZE, probeMtu, refusedBefore, false, Echoed);
    sent' := sent;
    WidestInterval();
    BracketStarts(env, probeMtu, refusedBefore, sent);
    InTimeEmpty(env, Reserve(timeout), deadline, sent);
    var step := 0;
    while step < MAX_STEPS && b.hi - b.lo > 1 && !b.truncated && b.end == Echoed
      invariant 0 <= step <= MAX_STEPS && sent <= sent' && |sent'| <= |sent| + step && Faithful(env, sent')
      invariant Bracketed(env, probeMtu, sent', |sent|, b)
      invariant !b.end.Lost? && (b.end.TooBig? ==> Usable(probeMtu, b.end.mtu))
      invariant !b.truncated && b.end == Echoed && probeMtu <= MAX_IP_SIZE ==> b.hi - b.lo <= Pow2(MAX_STEPS - step)
      invariant InTime(env, Reserve(timeout), deadline, sent', |sent|)
      invariant b.truncated ==> |sent'| < |sent| + step && env.clock(sent') + Reserve(timeout) > deadline
      decreases MAX_STEPS - step
    {
      ghost var width, before := b.hi - b.lo, sent';
      b, sent' := Halve(env, probeMtu, timeout, deadline, b, sent', |sent|);
      InTimeExtends(env, Reserve(timeout), deadline, before, sent', |sent|);
      if !b.truncated && b.end == Echoed && probeMtu <= MAX_IP_SIZE {
        HalvingBound(width, b.hi - b.lo, MAX_STEPS - step);
      }
      step := step + 1;
    }
    BracketLo(env, probeMtu, sent', |sent|, b);
    PowZero();
  }

  lemma PowZero()
    ensures Pow2(0) == 1
  {
  }

  /** A black hole the bisection suspects and the confirmation has to repeat. */
  ghost predicate Suspected(d: Details, sent: seq<Exchange>) {
    && d.verdict == Blackhole && d.reason == None && BASE_SIZE < d.pathMtu < d.probeMtu
    && NoRefusal(sent) && Exchange(d.pathMtu, Echoed) in sent
    && Times(sent, d.probeMtu, Lost) == ATTEMPTS && OnlyLost(sent, d.probeMtu)
    && Exchange(d.probeMtu, Echoed) !in sent && SizesWithin(d.probeMtu, sent)
    && (!d.truncated && d.probeMtu <= MAX_IP_SIZE ==> Failed(sent, d.pathMtu + 1))
  }

  /** The full size and the size that crossed, once more each; a silent path must repeat itself. It
      never reads the clock: the bisection kept the time for both sends. */
  method ConfirmBlackhole(env: Env, d: Details, sent: seq<Exchange>) returns (d': Details, sent': seq<Exchange>)
    requires Faithful(env, sent) && Suspected(d, sent)
    ensures sent <= sent' && |sent'| <= |sent| + CONFIRM_SENDS
    ensures d'.probeMtu == d.probeMtu && d'.truncated == d.truncated
    ensures Explained(env, d', sent')
  {
    hide Faithful, Suspected, Explained;
    var r;
    r, sent' := SendOnce(env, d.probeMtu, sent);
    d' := d.(steps := |sent'|);
    match r {
      case Echoed =>
        d' := d'.(verdict := Ok, pathMtu := d.probeMtu);
        FullSizeAnswered(env, d, r, sent);
      case TooBig(mtu) =>
        d' := d'.(verdict := Reduced);
        if Usable(d.probeMtu, mtu) {
          d' := d'.(pathMtu := mtu);
        }
        FullSizeAnswered(env, d, r, sent);
      case Stopped =>
        d' := NoVerdict(d', StoppedEarly);
        ConfirmationStopped(env, d, sent, sent');
      case Lost =>
        var r2, twice := SendOnce(env, d.pathMtu, sent');
        d' := d.(steps := |twice|);
        if r2 == Lost {
          d' := NoVerdict(d', NotRepeated);
          CrossingNotRepeated(env, d, sent);
        } else if r2 != Echoed {
          d' := NoVerdict(d', StoppedEarly);
          ConfirmationStopped(env, d, sent, twice);
        } else {
          BlackholeRepeated(env, d, sent);
        }
        sent' := twice;
    }
  }

  lemma FullSizeAnswered(env: Env, d: Details, r: Answer, sent: seq<Exchange>)
    requires Suspected(d, sent) && (r == Echoed || r.TooBig?)
    requires Faithful(env, sent + [Exchange(d.probeMtu, r)])
    ensures
      var d' := d.(steps := |sent| + 1);
      var path := if r == Echoed then d.probeMtu else if Usable(d.probeMtu, r.mtu) then r.mtu else d.pathMtu;
      var verdict := if r == Echoed then Ok else Reduced;
      Explained(env, d'.(verdict := verdict, pathMtu := path), sent + [Exchange(d.probeMtu, r)])
  {
    hide Faithful, Times;
    var sent' := sent + [Exchange(d.probeMtu, r)];
    assert sent'[|sent|] == Exchange(d.probeMtu, r) && forall i :: 0 <= i < |sent| ==> sent'[i] == sent[i];
  }

  lemma ConfirmationStopped(env: Env, d: Details, sent: seq<Exchange>, sent': seq<Exchange>)
    requires Suspected(d, sent) && Faithful(env, sent')
    requires
      || (sent' == sent && env.cancelled(sent))
      || sent' == sent + [Exchange(d.probeMtu, Stopped)]
      || (sent' == sent + [Exchange(d.probeMtu, Lost)] && env.cancelled(sent'))
      || (exists r: Answer ::
          sent' == sent + [Exchange(d.probeMtu, Lost)] + [Exchange(d.pathMtu, r)] && (r == Stopped || r.TooBig?))
    ensures Explained(env, NoVerdict(d.(steps := |sent'|), StoppedEarly), sent')
  {
    hide Faithful, Times;
    assert forall i :: 0 <= i < |sent| ==> sent'[i] == sent[i];
  }

  lemma CrossingNotRepeated(env: Env, d: Details, sent: seq<Exchange>)
    requires Suspected(d, sent)
    requires Faithful(env, sent + [Exchange(d.probeMtu, Lost)] + [Exchange(d.pathMtu, Lost)])
    ensures
      var sent' := sent + [Exchange(d.probeMtu, Lost)] + [Exchange(d.pathMtu, Lost)];
      Explained(env, NoVerdict(d.(steps := |sent'|), NotRepeated), sent')
  {
    hide Faithful, Times;
  }

  lemma BlackholeRepeated(env: Env, d: Details, sent: seq<Exchange>)
    requires Suspected(d, sent)
    requires Faithful(env, sent + [Exchange(d.probeMtu, Lost)] + [Exchange(d.pathMtu, Echoed)])
    ensures
      var sent' := sent + [Exchange(d.probeMtu, Lost)] + [Exchange(d.pathMtu, Echoed)];
      Explained(env, d.(steps := |sent'|), sent')
  {
    hide Faithful;
    var sent' := sent + [Exchange(d.probeMtu, Lost)] + [Exchange(d.pathMtu, Echoed)];
    assert forall i :: 0 <= i < |sent| ==> sent'[i] == sent[i];
    var once := sent + [Exchange(d.probeMtu, Lost)];
    TimesAppend(sent, Exchange(d.probeMtu, Lost), d.probeMtu, Lost);
    TimesAppend(once, Exchange(d.pathMtu, Echoed), d.probeMtu, Lost);
    TimesAppend(sent, Exchange(d.probeMtu, Lost), d.pathMtu, Echoed);
    TimesAppend(once, Exchange(d.pathMtu, Echoed), d.pathMtu, Echoed);
  }

  /** What the base and the full-size datagrams leave when the bisection has to decide. */
  ghost predicate Opened(env: Env, probeMtu: int, refused: bool, sent: seq<Exchange>) {
    && Faithful(env, sent)
    && SizesWithin(probeMtu, sent)
    && Exchange(BASE_SIZE, Echoed) in sent && Failed(sent, probeMtu)
    && (refused <==> !NoRefusal(sent)) && NothingCrossed(sent) && NoNumber(probeMtu, sent)
    && (BASE_SIZE < probeMtu ==> Exchange(probeMtu, Echoed) !in sent)
    && (BASE_SIZE < probeMtu && !refused ==> Times(sent, probeMtu, Lost) == ATTEMPTS && NoneAbove(sent, BASE_SIZE))
  }

  /** The base datagram crossed, on the first attempt or the second. */
  ghost predicate BaseCrossed(base: seq<Exchange>) {
    && Exchange(BASE_SIZE, Echoed) in base
    && forall i :: 0 <= i < |base| ==> base[i].size == BASE_SIZE && !base[i].answer.TooBig?
  }

  /** The base datagram: losing it twice is the udp plane's business, not an MTU verdict. */
  method TryBase(env: Env, probeMtu: int) returns (d: Details, going: bool, sent: seq<Exchange>)
    requires BASE_SIZE < probeMtu
    ensures |sent| <= ATTEMPTS && d.probeMtu == probeMtu && !d.truncated
    ensures if going then Faithful(env, sent) && BaseCrossed(sent) else Explained(env, d, sent)
  {
    hide Faithful;
    assert Faithful(env, []) by { EmptyTrace(env); }
    var r;
    r, sent := SendTwice(env, BASE_SIZE, []);
    assert r != Stopped ==> sent[|sent| - 1] == Exchange(BASE_SIZE, r);
    going := r == Echoed;
    var reason := if r == Lost then BaseLost else StoppedEarly;
    d := NoVerdict(Details(Unreachable, 0, probeMtu, |sent|, false, None), reason);
  }

  lemma EmptyTrace(env: Env)
    ensures Faithful(env, [])
  {
  }

  /** The full size failed without a usable number: the bisection decides. */
  lemma FullSizeFailed(env: Env, probeMtu: int, base: seq<Exchange>, r: Answer, sent: seq<Exchange>)
    requires BaseCrossed(base) && Faithful(env, sent) && BASE_SIZE < probeMtu
    requires TriedTwice(env, probeMtu, base, r, sent)
    requires r.Lost? || (r.TooBig? && !Usable(probeMtu, r.mtu))
    ensures Opened(env, probeMtu, r.TooBig?, sent)
  {
    hide Faithful;
    assert sent[|sent| - 1] == Exchange(probeMtu, r) && Times([], probeMtu, Lost) == 0;
    hide Times;
    if r == Lost {
      var lost := Exchange(probeMtu, Lost);
      TimesUnchanged([], base, probeMtu, Lost);
      TimesAppend(base, lost, probeMtu, Lost);
      TimesAppend(base + [lost], lost, probeMtu, Lost);
    }
  }

  /** The full size, once the base crossed: a verdict, or the state the bisection starts from. */
  method TryFull(env: Env, probeMtu: int, base: seq<Exchange>)
    returns (d: Details, going: bool, refused: bool, sent: seq<Exchange>)
    requires Faithful(env, base) && BaseCrossed(base) && BASE_SIZE < probeMtu
    ensures base <= sent && |sent| <= |base| + ATTEMPTS
    ensures d.probeMtu == probeMtu && !d.truncated
    ensures if going then Opened(env, probeMtu, refused, sent) else Explained(env, d, sent)
  {
    hide Faithful, Opened, Times;
    var r;
    r, sent := SendTwice(env, probeMtu, base);
    d, going, refused := Details(Unreachable, 0, probeMtu, |sent|, false, None), false, r.TooBig?;
    assert r != Stopped ==> sent[|sent| - 1] == Exchange(probeMtu, r);
    if r == Echoed {
      d := d.(verdict := Ok, pathMtu := probeMtu);
    } else if r == Stopped {
      d := NoVerdict(d, StoppedEarly);
    } else if refused && Usable(probeMtu, r.mtu) {
      d := d.(verdict := Reduced, pathMtu := r.mtu);
    } else {
      FullSizeFailed(env, probeMtu, base, r, sent);
      going := true;
    }
  }

  /** The bisection's trace keeps what the opening left about the base and the full size. */
  lemma OpeningSurvives(env: Env, probeMtu: int, refused: bool, start: seq<Exchange>, sent: seq<Exchange>, b: Bisected)
    requires Opened(env, probeMtu, refused, start) && start <= sent
    requires Bracketed(env, probeMtu, sent, |start|, b) && BASE_SIZE < probeMtu
    ensures Exchange(probeMtu, Echoed) !in sent && Failed(sent, probeMtu) && SizesWithin(probeMtu, sent)
    ensures !b.refused ==> Times(sent, probeMtu, Lost) == ATTEMPTS && OnlyLost(sent, probeMtu)
    ensures !b.refused && b.lo == BASE_SIZE && b.end == Echoed ==> NoneAbove(sent, BASE_SIZE)
    ensures b.lo == BASE_SIZE ==> NothingCrossed(sent)
    ensures forall i :: 0 <= i < |sent| && sent[i].answer.TooBig? && Usable(probeMtu, sent[i].answer.mtu) ==>
      i == |sent| - 1 && b.end == sent[i].answer
  {
    assert forall i :: 0 <= i < |start| ==> start[i] == sent[i];
    if !b.refused {
      TimesUnchanged(start, sent, probeMtu, Lost);
    }
  }

  lemma {:induction false} TimesUnchanged(start: seq<Exchange>, sent: seq<Exchange>, size: int, answer: Answer)
    requires start <= sent
    requires forall i :: |start| <= i < |sent| ==> sent[i].size != size
    ensures Times(sent, size, answer) == Times(start, size, answer)
  {
    if |sent| > |start| {
      var before, last := sent[..|sent| - 1], sent[|sent| - 1];
      TimesUnchanged(start, before, size, answer);
      TimesAppend(before, last, size, answer);
      assert sent == before + [last];
    } else {
      assert sent == start;
    }
  }

  /** The verdict once the bisection has stopped; a silent path is confirmed first. */
  method Conclude(env: Env, probeMtu: int, ghost refused: bool, ghost start: seq<Exchange>, b: Bisected,
                  sent: seq<Exchange>)
    returns (d: Details, sent': seq<Exchange>)
    requires Opened(env, probeMtu, refused, start) && start <= sent && Faithful(env, sent)
    requires Bracketed(env, probeMtu, sent, |start|, b)
    requires !b.end.Lost? && (b.end.TooBig? ==> Usable(probeMtu, b.end.mtu))
    requires !b.truncated && b.end == Echoed && probeMtu <= MAX_IP_SIZE ==> b.hi == b.lo + 1
    requires BASE_SIZE < probeMtu
    ensures Explained(env, d, sent') && d.probeMtu == probeMtu && d.truncated == b.truncated
    ensures sent <= sent'
    ensures |sent'| <= |sent| + if b.lo == BASE_SIZE || b.refused || b.end != Echoed then 0 else CONFIRM_SENDS
  {
    hide Faithful, Times, Opened;
    OpeningSurvives(env, probeMtu, refused, start, sent, b);
    d, sent' := Details(Unreachable, 0, probeMtu, |sent|, b.truncated, None), sent;
    if b.end.TooBig? {
      d := d.(verdict := Reduced, pathMtu := b.end.mtu);
    } else if b.end == Stopped {
      d := NoVerdict(d, StoppedEarly);
    } else if b.lo == BASE_SIZE && b.truncated {
      d := NoVerdict(d, OutOfTime);
    } else if b.lo == BASE_SIZE && !b.refused {
      d := NoVerdict(d, AllLost);
    } else if b.refused {
      d := d.(verdict := Reduced, pathMtu := b.lo);
    } else {
      d := d.(verdict := Blackhole, pathMtu := b.lo);
      d, sent' := ConfirmBlackhole(env, d, sent);
    }
  }

  // ---- the time budget ----

  lemma {:induction false} ClockAdvance(env: Env, timeout: int, sent: seq<Exchange>, k: nat)
    requires SendsWithin(env, timeout) && k <= |sent|
    ensures env.clock(sent) <= env.clock(sent[..k]) + (|sent| - k) * timeout
  {
    if k == |sent| {
      assert sent[..k] == sent;
    } else {
      var before, last := sent[..|sent| - 1], sent[|sent| - 1];
      ClockAdvance(env, timeout, before, k);
      assert before[..k] == sent[..k] && before + [last] == sent;
      assert (|sent| - k) * timeout == (|before| - k) * timeout + timeout;
    }
  }

  ghost function EndBy(env: Env, timeout: int, deadline: int): int {
    var opening := env.clock([]) + 2 * ATTEMPTS * timeout;
    if opening < deadline then deadline else opening
  }

  lemma EndsInTime(env: Env, timeout: int, deadline: int, start: seq<Exchange>, mid: seq<Exchange>, sent: seq<Exchange>)
    requires SendsWithin(env, timeout)
    requires |start| <= 2 * ATTEMPTS && start <= mid <= sent
    requires InTime(env, Reserve(timeout), deadline, mid, |start|)
    requires |sent| <= |mid| + if |mid| > |start| then CONFIRM_SENDS else 0
    ensures env.clock(sent) <= EndBy(env, timeout, deadline)
  {
    if |mid| == |start| {
      ClockAdvance(env, timeout, sent, 0);
      assert sent[..0] == [];
      MulMonotone(|sent|, 2 * ATTEMPTS, timeout);
    } else {
      var k := |mid| - 1;
      ClockAdvance(env, timeout, sent, k);
      assert sent[..k] == mid[..k];
      MulMonotone(|sent| - k, 1 + CONFIRM_SENDS, timeout);
    }
  }

  /** A search is cut short only when the deadline leaves no room for all its datagrams. */
  lemma TruncatedIsLate(env: Env, timeout: int, deadline: int, sent: seq<Exchange>)
    requires SendsWithin(env, timeout) && |sent| < 2 * ATTEMPTS + MAX_STEPS
    requires env.clock(sent) + Reserve(timeout) > deadline
    ensures env.clock([]) + MAX_SENDS * timeout > deadline
  {
    ClockAdvance(env, timeout, sent, 0);
    assert sent[..0] == [];
    MulMonotone(|sent|, 2 * ATTEMPTS + MAX_STEPS - 1, timeout);
  }

  lemma MulMonotone(a: int, b: int, t: int)
    requires 0 <= a <= b && 0 <= t
    ensures a * t <= b * t
  {
  }

  lemma OpenedFacts(env: Env, probeMtu: int, refused: bool, sent: seq<Exchange>)
    requires Opened(env, probeMtu, refused, sent)
    ensures Faithful(env, sent) && Exchange(BASE_SIZE, Echoed) in sent && Failed(sent, probeMtu)
    ensures refused <==> !NoRefusal(sent)
  {
  }

  /** A path that carries t and no more can be measured: within range, uncancelled, in time. */
  ghost predicate Measurable(env: Env, t: int, d: Details) {
    NeverCancelled(env) && BASE_SIZE < t < d.probeMtu <= MAX_IP_SIZE && !d.truncated
  }

  /** The whole search. Whatever the path does, the verdict is explained by the trace, at most 22
      datagrams go out, and the search ends on time. */
  method Run(env: Env, probeMtu: int, timeout: int, deadline: int) returns (d: Details, sent: seq<Exchange>)
    requires BASE_SIZE < probeMtu
    ensures Explained(env, d, sent) && d.probeMtu == probeMtu
    ensures |sent| <= MAX_SENDS
    ensures SendsWithin(env, timeout) ==> env.clock(sent) <= EndBy(env, timeout, deadline)
    ensures SendsWithin(env, timeout) && env.clock([]) + MAX_SENDS * timeout <= deadline ==> !d.truncated
    ensures forall t :: SilentAbove(env, t) && Measurable(env, t, d) ==>
      d.verdict == Blackhole && d.pathMtu == t
    ensures forall t :: MuteRefusalAbove(env, t, probeMtu) && Measurable(env, t, d) ==>
      d.verdict == Reduced && d.pathMtu == t
  {
    hide SilentAbove, MuteRefusalAbove, NeverCancelled, Faithful, Explained, Opened, Bracketed, InTime;
    hide SendsWithin, BaseCrossed, EndBy, Failed, NoRefusal;
    var going, refused, b;
    d, going, sent := TryBase(env, probeMtu);
    ghost var start, mid := sent, sent;
    if going {
      d, going, refused, sent := TryFull(env, probeMtu, sent);
      start, mid := sent, sent;
    }
    InTimeEmpty(env, Reserve(timeout), deadline, start);
    if going {
      OpenedFacts(env, probeMtu, refused, start);
      b, sent := Bisect(env, probeMtu, timeout, deadline, refused, sent);
      mid := sent;
      BracketLo(env, probeMtu, mid, |start|, b);
      d, sent := Conclude(env, probeMtu, refused, start, b, sent);
    }
    if SendsWithin(env, timeout) {
      EndsInTime(env, timeout, deadline, start, mid, sent);
      if d.truncated {
        TruncatedIsLate(env, timeout, deadline, mid);
      }
    }
    forall t | SilentAbove(env, t) && Measurable(env, t, d)
      ensures d.verdict == Blackhole && d.pathMtu == t
    {
      SilentPathIsExact(env, t, d, sent);
    }
    forall t | MuteRefusalAbove(env, t, probeMtu) && Measurable(env, t, d)
      ensures d.verdict == Reduced && d.pathMtu == t
    {
      MutePathIsExact(env, t, d, sent);
    }
  }

  // ---- exactness on paths that behave ----

  lemma {:induction false} AnswerFromPath(env: Env, sent: seq<Exchange>, i: nat)
    requires Faithful(env, sent) && i < |sent|
    ensures sent[i].answer == env.path(sent[..i], sent[i].size)
  {
    if i < |sent| - 1 {
      var before := sent[..|sent| - 1];
      AnswerFromPath(env, before, i);
      assert before[i] == sent[i] && before[..i] == sent[..i];
    }
  }

  lemma AllAnswersFromPath(env: Env, sent: seq<Exchange>)
    requires Faithful(env, sent)
    ensures forall i :: 0 <= i < |sent| ==> sent[i].answer == env.path(sent[..i], sent[i].size)
  {
    forall i | 0 <= i < |sent| ensures sent[i].answer == env.path(sent[..i], sent[i].size) {
      AnswerFromPath(env, sent, i);
    }
  }

  /** A path that silently drops everything above t: the untruncated search reports a black hole at
      exactly t, except that a path carrying nothing above the base is no verdict. */
  lemma SilentPathIsExact(env: Env, t: int, d: Details, sent: seq<Exchange>)
    requires Explained(env, d, sent)
    requires SilentAbove(env, t) && NeverCancelled(env) && BASE_SIZE <= t < d.probeMtu <= MAX_IP_SIZE
    ensures !d.truncated && BASE_SIZE < t ==> d.verdict == Blackhole && d.pathMtu == t
    ensures !d.truncated && t == BASE_SIZE ==> d.verdict == Unreachable && d.reason == AllLost
    ensures d.truncated ==> d.verdict == Unreachable || (d.verdict == Blackhole && BASE_SIZE < d.pathMtu <= t)
  {
    AllAnswersFromPath(env, sent);
    assert forall i :: 0 <= i < |sent| ==> sent[i].answer == if sent[i].size <= t then Echoed else Lost;
    assert d.verdict in {Unreachable, Blackhole};
    assert d.verdict == Unreachable ==> d.reason in {OutOfTime, AllLost};
    assert d.verdict == Blackhole ==> Exchange(d.pathMtu, Echoed) in sent;
  }

  /** A path that refuses everything above t without a usable number: reduced, at exactly t. */
  lemma MutePathIsExact(env: Env, t: int, d: Details, sent: seq<Exchange>)
    requires Explained(env, d, sent)
    requires MuteRefusalAbove(env, t, d.probeMtu) && NeverCancelled(env) && BASE_SIZE <= t < d.probeMtu <= MAX_IP_SIZE
    ensures !d.truncated ==> d.verdict == Reduced && d.pathMtu == t
    ensures d.truncated ==> d.verdict == Unreachable || (d.verdict == Reduced && d.pathMtu <= t)
  {
    AllAnswersFromPath(env, sent);
    assert forall i :: 0 <= i < |sent| ==>
      if sent[i].size <= t then sent[i].answer == Echoed
      else sent[i].answer.TooBig? && !Usable(d.probeMtu, sent[i].answer.mtu);
    assert d.verdict == Blackhole ==> Exchange(d.probeMtu, Lost) in sent;
  }

  /** A path that refuses everything above t with the number t: reduced, at exactly t. */
  lemma NumberedPathIsExact(env: Env, t: int, d: Details, sent: seq<Exchange>)
    requires Explained(env, d, sent)
    requires NumberedRefusalAbove(env, t) && NeverCancelled(env) && BASE_SIZE < t < d.probeMtu <= MAX_IP_SIZE
    ensures !d.truncated ==> d.verdict == Reduced && d.pathMtu == t
  {
    AllAnswersFromPath(env, sent);
    assert forall i :: 0 <= i < |sent| ==> sent[i].answer == if sent[i].size <= t then Echoed else TooBig(t);
    assert d.verdict == Blackhole ==> Exchange(d.probeMtu, Lost) in sent;
  }

  /** A path that carries the full size is never reported as anything but ok. */
  lemma HealthyPathIsOk(env: Env, d: Details, sent: seq<Exchange>)
    requires Explained(env, d, sent) && BASE_SIZE < d.probeMtu <= MAX_IP_SIZE
    requires NeverCancelled(env) && forall h: seq<Exchange>, s: int :: s <= d.probeMtu ==> env.path(h, s) == Echoed
    ensures d.verdict == Ok
  {
    AllAnswersFromPath(env, sent);
    assert forall i :: 0 <= i < |sent| ==> sent[i].answer == Echoed;
    assert d.verdict == Blackhole ==> Exchange(d.probeMtu, Lost) in sent;
  }
}
