/** Netlink route messages: attributes and messages as in section 2.3.2 of RFC 3549, each led by its own
    length and padded to four bytes, and the reading of a route reply. Bytes are little-endian. */
module Netlink {

  type byte = b: int | 0 <= b < 256

  datatype Result<+T> = Ok(value: T) | Malformed | Errno(code: nat) | NoRoute

  const ATTR_HEADER: nat := 4
  const MSG_HEADER: nat := 16
  const ROUTE_HEADER: nat := 12
  const NEXTHOP_HEADER: nat := 8

  const RTA_OIF: nat := 4
  const RTA_METRICS: nat := 8
  const RTA_MULTIPATH: nat := 9
  const RTAX_MTU: nat := 2
  const RTM_NEWROUTE: nat := 24
  const NLMSG_ERROR: nat := 2

  /** Types below this carry no flag bits. */
  const TYPE_SPAN: nat := 0x4000

  datatype Attr = Attr(kind: nat, value: seq<byte>)

  // ---- numbers and padding ----

  function Put16(n: nat): (r: seq<byte>)
    requires n < 65536
    ensures |r| == 2
  {
    [n % 256, n / 256]
  }

  function Get16(b: seq<byte>): (n: nat)
    requires |b| >= 2
    ensures n < 65536
  {
    b[0] as int + 256 * b[1] as int
  }

  function Put32(n: nat): (r: seq<byte>)
    requires n < 0x1_0000_0000
    ensures |r| == 4
  {
    Put16(n % 65536) + Put16(n / 65536)
  }

  function Get32(b: seq<byte>): (n: nat)
    requires |b| >= 4
    ensures n < 0x1_0000_0000
  {
    Get16(b) + 65536 * Get16(b[2..])
  }

  lemma Put16Reads(n: nat, rest: seq<byte>)
    requires n < 65536
    ensures Get16(Put16(n) + rest) == n && (Put16(n) + rest)[2..] == rest
  {
  }

  lemma Put32Reads(n: nat, rest: seq<byte>)
    requires n < 0x1_0000_0000
    ensures Get32(Put32(n) + rest) == n && (Put32(n) + rest)[4..] == rest
  {
    assert Put32(n) + rest == Put16(n % 65536) + (Put16(n / 65536) + rest);
    Put16Reads(n % 65536, Put16(n / 65536) + rest);
    Put16Reads(n / 65536, rest);
    hide Put16, Get16;
    assert (Put32(n) + rest)[4..] == ((Put32(n) + rest)[2..])[2..];
  }

  /** nlAlign. */
  function Align(n: nat): (r: nat)
    ensures n <= r < n + 4 && r % 4 == 0
  {
    (n + 3) / 4 * 4
  }

  function Padding(n: nat): (r: seq<byte>)
    ensures |r| == Align(n) - n
  {
    seq(Align(n) - n, _ => 0)
  }

  function Rest(b: seq<byte>, n: nat): seq<byte>
    requires n <= |b|
  {
    b[if Align(n) < |b| then Align(n) else |b|..]
  }

  /** What follows a padded block of n bytes. */
  lemma RestIs(block: seq<byte>, after: seq<byte>)
    ensures Rest(block + Padding(|block|) + after, |block|) == after
    ensures (block + Padding(|block|) + after)[..|block|] == block
  {
    hide Align;
  }

  // ---- attributes ----

  /** routeAttr: the length field is sixteen bits wide. */
  function Encode(a: Attr): seq<byte>
    requires a.kind < 65536
  {
    var block := Put16((ATTR_HEADER + |a.value|) % 65536) + Put16(a.kind) + a.value;
    block + Padding(|block|)
  }

  ghost predicate Fits(a: Attr) {
    a.kind < TYPE_SPAN && |a.value| <= 65531
  }

  ghost predicate AllFit(list: seq<Attr>) {
    forall i :: 0 <= i < |list| ==> list[i].kind < TYPE_SPAN && |list[i].value| <= 65531
  }

  datatype Walk = Walk(attrs: seq<Attr>, ok: bool)

  /** The attributes a walk visits, and whether it reached the end. */
  function Walked(b: seq<byte>): Walk
    decreases |b|
  {
    if |b| < ATTR_HEADER then Walk([], true)
    else
      var n := Get16(b);
      if n < ATTR_HEADER || n > |b| then Walk([], false)
      else
        var w := Walked(Rest(b, n));
        Walk([Attr(Get16(b[2..]) % TYPE_SPAN, b[ATTR_HEADER..n])] + w.attrs, w.ok)
  }

  function EncodeAll(list: seq<Attr>): seq<byte>
    requires forall i :: 0 <= i < |list| ==> list[i].kind < 65536
  {
    if list == [] then [] else Encode(list[0]) + EncodeAll(list[1..])
  }

  /** The header and value read back from an encoding whose length field did not wrap. */
  lemma EncodeReads(a: Attr, after: seq<byte>)
    requires a.kind < 65536 && |a.value| <= 65531
    ensures var b := Encode(a) + after; var n := ATTR_HEADER + |a.value|;
      |b| >= n && Get16(b) == n && Get16(b[2..]) == a.kind && b[ATTR_HEADER..n] == a.value && Rest(b, n) == after
  {
    hide Put16, Get16, Align, Rest, Padding;
    var block := Put16(ATTR_HEADER + |a.value|) + Put16(a.kind) + a.value;
    var tail := Padding(|block|) + after;
    var b := Encode(a) + after;
    assert b == block + Padding(|block|) + after;
    RestIs(block, after);
    assert b == Put16(ATTR_HEADER + |a.value|) + (Put16(a.kind) + (a.value + tail));
    Put16Reads(ATTR_HEADER + |a.value|, Put16(a.kind) + (a.value + tail));
    Put16Reads(a.kind, a.value + tail);
    assert b[ATTR_HEADER..ATTR_HEADER + |a.value|] == block[ATTR_HEADER..];
  }

  /** Walking an encoded attribute visits it and goes on behind it. */
  lemma WalkStep(a: Attr, after: seq<byte>)
    requires a.kind < 65536 && |a.value| <= 65531
    ensures Walked(Encode(a) + after)
      == Walk([Attr(a.kind % TYPE_SPAN, a.value)] + Walked(after).attrs, Walked(after).ok)
  {
    EncodeReads(a, after);
    hide Encode, Get16, Rest;
  }

  /** Whatever follows, a walk over encodings visits exactly those attributes, in order. */
  lemma {:induction false} WalkOfEncodings(list: seq<Attr>, after: seq<byte>)
    requires AllFit(list)
    ensures Walked(EncodeAll(list) + after) == Walk(list + Walked(after).attrs, Walked(after).ok)
  {
    hide Walked, Encode;
    if list == [] {
      assert EncodeAll(list) + after == after && list + Walked(after).attrs == Walked(after).attrs;
    } else {
      var a, tail := list[0], list[1..];
      WalkOfEncodings(tail, after);
      WalkStep(a, EncodeAll(tail) + after);
      assert a.kind % TYPE_SPAN == a.kind && Attr(a.kind, a.value) == a;
      Associate(Encode(a), EncodeAll(tail), after);
      assert list + Walked(after).attrs == [a] + (tail + Walked(after).attrs);
    }
  }

  lemma Associate(x: seq<byte>, y: seq<byte>, z: seq<byte>)
    ensures x + y + z == x + (y + z)
  {
  }

  lemma RoundTrip(list: seq<Attr>)
    requires AllFit(list)
    ensures Walked(EncodeAll(list)) == Walk(list, true)
  {
    WalkOfEncodings(list, []);
    assert EncodeAll(list) + [] == EncodeAll(list) && list + [] == list;
  }

  /** One attribute comes back exactly when it carries no flag bits and its length fits. */
  lemma RoundTripIff(a: Attr)
    requires a.kind < 65536
    ensures Walked(Encode(a)) == Walk([a], true) <==> Fits(a)
  {
    assert Encode(a) + [] == Encode(a);
    if |a.value| <= 65531 {
      WalkStep(a, []);
      assert Walked([]) == Walk([], true);
      assert Walked(Encode(a)) == Walk([Attr(a.kind % TYPE_SPAN, a.value)], true);
      assert [Attr(a.kind % TYPE_SPAN, a.value)] == [a] ==> Attr(a.kind % TYPE_SPAN, a.value) == a;
    } else {
      WrappedLength(a);
    }
  }

  /** A length that wrapped names fewer bytes than the value has. */
  lemma WrappedLength(a: Attr)
    requires a.kind < 65536 && |a.value| > 65531
    ensures Walked(Encode(a)) != Walk([a], true)
  {
    var b := Encode(a);
    var n := (ATTR_HEADER + |a.value|) % 65536;
    assert b == Put16(n) + (Put16(a.kind) + a.value + Padding(ATTR_HEADER + |a.value|));
    Put16Reads(n, Put16(a.kind) + a.value + Padding(ATTR_HEADER + |a.value|));
    hide Put16, Get16, Encode, Rest;
  }

  // ---- reading a route ----

  /** The mtu metric, 0 when there is none, and the egress devices. */
  datatype Route = Route(mtu: nat, oifs: seq<nat>)

  /** The devices of a multipath attribute. */
  function HopDevices(v: seq<byte>): Result<seq<nat>>
    decreases |v|
  {
    if |v| < NEXTHOP_HEADER then Ok([])
    else
      var n := Get16(v);
      if n < NEXTHOP_HEADER || n > |v| then Malformed
      else
        var rest := HopDevices(Rest(v, n));
        if rest.Ok? then Ok([Get32(v[4..])] + rest.value) else rest
  }

  /** The last well-formed mtu metric wins. */
  function MtuOf(metrics: seq<Attr>, mtu: nat): nat {
    if metrics == [] then mtu
    else
      var next := if metrics[0].kind == RTAX_MTU && |metrics[0].value| >= 4 then Get32(metrics[0].value) else mtu;
      MtuOf(metrics[1..], next)
  }

  /** An mtu metric that is long enough. */
  predicate IsMtu(a: Attr) {
    a.kind == 2 && |a.value| >= 4
  }

  lemma {:induction false} NoMtuKeeps(metrics: seq<Attr>, mtu: nat)
    requires forall j :: 0 <= j < |metrics| ==> !IsMtu(metrics[j])
    ensures MtuOf(metrics, mtu) == mtu
    decreases |metrics|
  {
    if metrics != [] {
      assert !IsMtu(metrics[0]);
      NoMtuKeeps(metrics[1..], mtu);
    }
  }

  lemma {:induction false} LastMtuWins(metrics: seq<Attr>, mtu: nat, i: nat)
    requires i < |metrics| && IsMtu(metrics[i]) && forall j :: i < j < |metrics| ==> !IsMtu(metrics[j])
    ensures MtuOf(metrics, mtu) == Get32(metrics[i].value)
    decreases |metrics|
  {
    hide Get32;
    var rest := metrics[1..];
    assert forall j :: 0 <= j < |rest| ==> rest[j] == metrics[j + 1];
    if i == 0 {
      NoMtuKeeps(rest, Get32(metrics[0].value));
    } else {
      LastMtuWins(rest, if IsMtu(metrics[0]) then Get32(metrics[0].value) else mtu, i - 1);
    }
  }

  function ReadAttr(r: Route, a: Attr): Result<Route> {
    if a.kind == RTA_OIF then
      if |a.value| < 4 then Malformed else Ok(r.(oifs := r.oifs + [Get32(a.value)]))
    else if a.kind == RTA_METRICS then
      var w := Walked(a.value);
      if w.ok then Ok(r.(mtu := MtuOf(w.attrs, r.mtu))) else Malformed
    else if a.kind == RTA_MULTIPATH then
      var hops := HopDevices(a.value);
      if hops.Ok? then Ok(r.(oifs := r.oifs + hops.value)) else Malformed
    else Ok(r)
  }

  function ReadAll(r: Route, attrs: seq<Attr>): Result<Route>
    decreases |attrs|
  {
    if attrs == [] then Ok(r)
    else
      var next := ReadAttr(r, attrs[0]);
      if next.Ok? then ReadAll(next.value, attrs[1..]) else next
  }

  function ParseAttrs(b: seq<byte>): Result<Route> {
    var w := Walked(b);
    var r := ReadAll(Route(0, []), w.attrs);
    if r.Ok? && !w.ok then Malformed else r
  }

  /** parseRouteReply: the first message of ours that is a route or an error decides. */
  function ParseReply(b: seq<byte>, id: nat): Result<Route>
    decreases |b|
  {
    if b == [] then NoRoute
    else if |b| < MSG_HEADER then Malformed
    else
      var n := Get32(b);
      if n < MSG_HEADER || n > |b| then Malformed
      else
        var kind, body := Get16(b[4..]), b[MSG_HEADER..n];
        if Get32(b[8..]) != id then ParseReply(Rest(b, n), id)
        else if kind == NLMSG_ERROR then
          if |body| < 4 then Malformed
          else if Get32(body) == 0 then ParseReply(Rest(b, n), id)
          else Errno((0x1_0000_0000 - Get32(body)) % 0x1_0000_0000)
        else if kind == RTM_NEWROUTE then
          if |body| < ROUTE_HEADER then Malformed else ParseAttrs(body[ROUTE_HEADER..])
        else ParseReply(Rest(b, n), id)
  }

  // ---- what a reply says ----

  /** One next hop of a multipath route, with whatever attributes it carries itself. */
  datatype Hop = Hop(flags: byte, weight: byte, oif: nat, extra: seq<byte>)

  datatype Item =
    | Oif(device: nat)
    | Metrics(list: seq<Attr>)
    | Multipath(hops: seq<Hop>)
    | Other(attr: Attr)

  ghost predicate HopsFit(hops: seq<Hop>) {
    forall i :: 0 <= i < |hops| ==> hops[i].oif < 0x1_0000_0000 && NEXTHOP_HEADER + |hops[i].extra| < 65536
  }

  function EncodeHop(h: Hop): seq<byte>
    requires h.oif < 0x1_0000_0000 && NEXTHOP_HEADER + |h.extra| < 65536
  {
    var block := Put16(NEXTHOP_HEADER + |h.extra|) + [h.flags, h.weight] + Put32(h.oif) + h.extra;
    block + Padding(|block|)
  }

  function EncodeHops(hops: seq<Hop>): seq<byte>
    requires HopsFit(hops)
  {
    if hops == [] then [] else EncodeHop(hops[0]) + EncodeHops(hops[1..])
  }

  function Devices(hops: seq<Hop>): seq<nat> {
    if hops == [] then [] else [hops[0].oif] + Devices(hops[1..])
  }

  ghost predicate ItemFits(item: Item) {
    match item
    case Oif(device) => device < 0x1_0000_0000
    case Metrics(list) => AllFit(list) && |EncodeAll(list)| <= 65531
    case Multipath(hops) => HopsFit(hops) && |EncodeHops(hops)| <= 65531
    case Other(attr) => Fits(attr) && attr.kind != RTA_OIF && attr.kind != RTA_METRICS && attr.kind != RTA_MULTIPATH
  }

  ghost function AttrOf(item: Item): (a: Attr)
    requires ItemFits(item)
    ensures a.kind < TYPE_SPAN && |a.value| <= 65531
  {
    match item
    case Oif(device) => Attr(RTA_OIF, Put32(device))
    case Metrics(list) => Attr(RTA_METRICS, EncodeAll(list))
    case Multipath(hops) => Attr(RTA_MULTIPATH, EncodeHops(hops))
    case Other(attr) => attr
  }

  function Meaning(r: Route, item: Item): Route {
    match item
    case Oif(device) => r.(oifs := r.oifs + [device])
    case Metrics(list) => r.(mtu := MtuOf(list, r.mtu))
    case Multipath(hops) => r.(oifs := r.oifs + Devices(hops))
    case Other(attr) => r
  }

  function MeaningOfAll(r: Route, items: seq<Item>): Route
    decreases |items|
  {
    if items == [] then r else MeaningOfAll(Meaning(r, items[0]), items[1..])
  }

  ghost predicate ItemsFit(items: seq<Item>) {
    forall i :: 0 <= i < |items| ==> ItemFits(items[i])
  }

  ghost function AttrsOf(items: seq<Item>): (r: seq<Attr>)
    requires ItemsFit(items)
    ensures AllFit(r)
  {
    if items == [] then [] else [AttrOf(items[0])] + AttrsOf(items[1..])
  }

  lemma HopReads(h: Hop, after: seq<byte>)
    requires h.oif < 0x1_0000_0000 && NEXTHOP_HEADER + |h.extra| < 65536
    ensures var v := EncodeHop(h) + after; var n := NEXTHOP_HEADER + |h.extra|;
      |v| >= n && Get16(v) == n && Get32(v[4..]) == h.oif && Rest(v, n) == after
  {
    hide Put16, Get16, Align, Rest, Padding, Put32, Get32;
    var n := NEXTHOP_HEADER + |h.extra|;
    var block := Put16(n) + [h.flags, h.weight] + Put32(h.oif) + h.extra;
    var v := EncodeHop(h) + after;
    var tail := h.extra + Padding(|block|) + after;
    assert v == block + Padding(|block|) + after;
    RestIs(block, after);
    assert v == Put16(n) + ([h.flags, h.weight] + Put32(h.oif) + tail);
    Put16Reads(n, [h.flags, h.weight] + Put32(h.oif) + tail);
    Put32Reads(h.oif, tail);
    assert v[4..] == Put32(h.oif) + tail;
  }

  lemma {:induction false} HopsRead(hops: seq<Hop>)
    requires HopsFit(hops)
    ensures HopDevices(EncodeHops(hops)) == Ok(Devices(hops))
  {
    if hops != [] {
      HopsRead(hops[1..]);
      HopReads(hops[0], EncodeHops(hops[1..]));
      hide EncodeHop, Get16, Get32, Rest;
    }
  }

  lemma ItemReads(r: Route, item: Item)
    requires ItemFits(item)
    ensures ReadAttr(r, AttrOf(item)) == Ok(Meaning(r, item))
  {
    match item
    case Oif(device) =>
      Put32Reads(device, []);
      assert Put32(device) + [] == Put32(device);
    case Metrics(list) => RoundTrip(list);
    case Multipath(hops) => HopsRead(hops);
    case Other(attr) =>
  }

  lemma {:induction false} ItemsRead(r: Route, items: seq<Item>)
    requires ItemsFit(items)
    ensures ReadAll(r, AttrsOf(items)) == Ok(MeaningOfAll(r, items))
    decreases |items|
  {
    hide ReadAttr, Meaning, AttrOf;
    if items != [] {
      ItemReads(r, items[0]);
      ItemsRead(Meaning(r, items[0]), items[1..]);
      assert AttrsOf(items)[1..] == AttrsOf(items[1..]);
    }
  }

  /** Reading the attributes of a route gives back what they say, other attributes in between or not. */
  lemma RouteRoundTrip(items: seq<Item>)
    requires ItemsFit(items)
    ensures ParseAttrs(EncodeAll(AttrsOf(items))) == Ok(MeaningOfAll(Route(0, []), items))
  {
    RoundTrip(AttrsOf(items));
    ItemsRead(Route(0, []), items);
  }

  // ---- messages ----

  datatype Message = Message(kind: nat, flags: nat, id: nat, port: nat, body: seq<byte>)

  ghost predicate MessageFits(m: Message) {
    && m.kind < 65536 && m.flags < 65536 && m.id < 0x1_0000_0000 && m.port < 0x1_0000_0000
    && MSG_HEADER + |m.body| < 0x1_0000_0000
  }

  ghost function Header(m: Message): (h: seq<byte>)
    requires MessageFits(m)
    ensures |h| == MSG_HEADER
  {
    Put32(MSG_HEADER + |m.body|) + Put16(m.kind) + Put16(m.flags) + Put32(m.id) + Put32(m.port)
  }

  ghost function EncodeMessage(m: Message): seq<byte>
    requires MessageFits(m)
  {
    var block := Header(m) + m.body;
    block + Padding(|block|)
  }

  /** The header, field after field. */
  lemma HeaderSplits(m: Message, rest: seq<byte>)
    requires MessageFits(m)
    ensures Header(m) + rest ==
      Put32(MSG_HEADER + |m.body|) + (Put16(m.kind) + (Put16(m.flags) + (Put32(m.id) + (Put32(m.port) + rest))))
  {
    hide Put16, Put32;
  }

  lemma HeaderReads(m: Message, rest: seq<byte>)
    requires MessageFits(m)
    ensures var b := Header(m) + rest;
      Get32(b) == MSG_HEADER + |m.body| && Get16(b[4..]) == m.kind && Get32(b[8..]) == m.id
  {
    hide Put16, Get16, Put32, Get32;
    HeaderSplits(m, rest);
    hide Header;
    var port := Put32(m.port) + rest;
    var id := Put32(m.id) + port;
    var flags := Put16(m.flags) + id;
    Put32Reads(MSG_HEADER + |m.body|, Put16(m.kind) + flags);
    Put16Reads(m.kind, flags);
    Put16Reads(m.flags, id);
    Put32Reads(m.id, port);
    var b := Header(m) + rest;
    assert b[8..] == ((b[4..])[2..])[2..];
  }

  lemma MessageReads(m: Message, after: seq<byte>)
    requires MessageFits(m)
    ensures var b := EncodeMessage(m) + after; var n := MSG_HEADER + |m.body|;
      && |b| >= n && Get32(b) == n && Get16(b[4..]) == m.kind && Get32(b[8..]) == m.id
      && b[MSG_HEADER..n] == m.body && Rest(b, n) == after
  {
    hide Get16, Align, Rest, Padding, Get32, Header;
    var block := Header(m) + m.body;
    var b := EncodeMessage(m) + after;
    assert b == block + Padding(|block|) + after;
    RestIs(block, after);
    assert b[MSG_HEADER..|block|] == block[MSG_HEADER..];
    assert b == Header(m) + (m.body + Padding(|block|) + after);
    HeaderReads(m, m.body + Padding(|block|) + after);
  }

  /** Messages of another exchange are passed over. */
  lemma ForeignIsSkipped(m: Message, after: seq<byte>, id: nat)
    requires MessageFits(m) && m.id != id
    ensures ParseReply(EncodeMessage(m) + after, id) == ParseReply(after, id)
  {
    MessageReads(m, after);
    hide Get16, Get32, Rest, EncodeMessage;
  }

  /** And the route of ours is read, whatever its header holds and whatever follows. */
  lemma ReplyRoundTrip(m: Message, header: seq<byte>, items: seq<Item>, after: seq<byte>)
    requires MessageFits(m) && m.kind == RTM_NEWROUTE && |header| == ROUTE_HEADER && ItemsFit(items)
    requires m.body == header + EncodeAll(AttrsOf(items))
    ensures ParseReply(EncodeMessage(m) + after, m.id) == Ok(MeaningOfAll(Route(0, []), items))
  {
    MessageReads(m, after);
    RouteRoundTrip(items);
    hide Get16, Get32, Rest, EncodeMessage, EncodeAll, ParseAttrs;
    assert m.body[ROUTE_HEADER..] == EncodeAll(AttrsOf(items));
  }

  lemma ErrorReads(m: Message, code: nat, rest: seq<byte>, after: seq<byte>)
    requires MessageFits(m) && m.kind == 2 && code < 0x1_0000_0000 && m.body == Put32(code) + rest
    ensures ParseReply(EncodeMessage(m) + after, m.id) ==
      if code == 0 then ParseReply(after, m.id) else Errno(0x1_0000_0000 - code)
  {
    hide Get16, Get32, Put32, Rest, EncodeMessage;
    MessageReads(m, after);
    Put32Reads(code, rest);
    if code > 0 {
      NegatedCode(code);
    }
  }

  lemma NegatedCode(code: nat)
    requires 0 < code < 0x1_0000_0000
    ensures (0x1_0000_0000 - code) % 0x1_0000_0000 == 0x1_0000_0000 - code
  {
  }

  /** An error of ours is read as the errno the kernel negated; an acknowledgement is passed over. */
  lemma ErrorRoundTrip(m: Message, errno: nat, rest: seq<byte>, after: seq<byte>)
    requires MessageFits(m) && m.kind == 2 && errno < 0x1_0000_0000
    requires m.body == Put32(if errno == 0 then 0 else 0x1_0000_0000 - errno) + rest
    ensures ParseReply(EncodeMessage(m) + after, m.id) == if errno == 0 then ParseReply(after, m.id) else Errno(errno)
  {
    hide ParseReply, EncodeMessage, Put32;
    ErrorReads(m, if errno == 0 then 0 else 0x1_0000_0000 - errno, rest, after);
  }

  /** Other messages of ours are passed over. */
  lemma OtherIsSkipped(m: Message, after: seq<byte>)
    requires MessageFits(m) && m.kind != 2 && m.kind != 24
    ensures ParseReply(EncodeMessage(m) + after, m.id) == ParseReply(after, m.id)
  {
    MessageReads(m, after);
    hide Get16, Get32, Rest, EncodeMessage;
  }

  /** An error or a route too short for its header is malformed. */
  lemma ShortBodyIsMalformed(m: Message, after: seq<byte>)
    requires MessageFits(m) && ((m.kind == 2 && |m.body| < 4) || (m.kind == 24 && |m.body| < 12))
    ensures ParseReply(EncodeMessage(m) + after, m.id) == Malformed
  {
    MessageReads(m, after);
    hide Get16, Get32, Rest, EncodeMessage;
  }

  /** So are bytes that do not hold the message they announce; no bytes at all are no route. */
  lemma BrokenReplies(b: seq<byte>, id: nat)
    ensures b == [] ==> ParseReply(b, id) == NoRoute
    ensures 0 < |b| < 16 ==> ParseReply(b, id) == Malformed
    ensures |b| >= 16 && !(16 <= Get32(b) <= |b|) ==> ParseReply(b, id) == Malformed
  {
  }

  /** And an attribute that ends beyond the bytes, or before its own header does. */
  lemma BrokenAttributes(b: seq<byte>)
    ensures |b| >= 4 && !(4 <= Get16(b) <= |b|) ==> !Walked(b).ok && ParseAttrs(b) == Malformed
    ensures |b| < 4 ==> ParseAttrs(b) == Ok(Route(0, []))
  {
  }

  /** So is a device, a metric or a next hop that does not fit its attribute. */
  lemma BrokenItems(r: Route, v: seq<byte>)
    ensures |v| < 4 ==> ReadAttr(r, Attr(4, v)) == Malformed
    ensures |v| >= 4 && !(4 <= Get16(v) <= |v|) ==> ReadAttr(r, Attr(8, v)) == Malformed
    ensures |v| >= 8 && !(8 <= Get16(v) <= |v|) ==> ReadAttr(r, Attr(9, v)) == Malformed
  {
  }

  // ---- the loops ----

  /** routeAttr: append zeros until the length is a multiple of four. */
  method RouteAttr(kind: nat, value: seq<byte>) returns (b: seq<byte>)
    requires kind < 65536
    ensures b == Encode(Attr(kind, value))
  {
    var block := Put16((ATTR_HEADER + |value|) % 65536) + Put16(kind) + value;
    b := block;
    while |b| % 4 != 0
      invariant |block| <= |b| <= Align(|block|) && b == block + Padding(|block|)[..|b| - |block|]
      decreases Align(|block|) - |b|
    {
      b := b + [0];
    }
  }

  method WalkAttrs(b: seq<byte>) returns (attrs: seq<Attr>, ok: bool)
    ensures Walk(attrs, ok) == Walked(b)
  {
    hide Get16, Rest;
    attrs, ok := [], true;
    var left := b;
    assert [] + Walked(left).attrs == Walked(left).attrs;
    while |left| >= ATTR_HEADER && ok
      invariant ok ==> Walked(b) == Walk(attrs + Walked(left).attrs, Walked(left).ok)
      invariant !ok ==> Walked(b) == Walk(attrs, false)
      decreases |left|, ok
    {
      var n := Get16(left);
      if n < ATTR_HEADER || n > |left| {
        assert attrs + [] == attrs;
        ok := false;
      } else {
        var a := Attr(Get16(left[2..]) % TYPE_SPAN, left[ATTR_HEADER..n]);
        var rest := left[if Align(n) < |left| then Align(n) else |left|..];
        RestOf(left, n);
        assert attrs + ([a] + Walked(rest).attrs) == (attrs + [a]) + Walked(rest).attrs;
        attrs, left := attrs + [a], rest;
      }
    }
    assert ok ==> attrs + [] == attrs;
  }

  lemma RestOf(b: seq<byte>, n: nat)
    requires 0 < n <= |b|
    ensures Rest(b, n) == b[if Align(n) < |b| then Align(n) else |b|..] && |Rest(b, n)| < |b|
  {
  }

  method ReadHops(v: seq<byte>) returns (oifs: seq<nat>, ok: bool)
    ensures ok <==> HopDevices(v).Ok?
    ensures ok ==> HopDevices(v).value == oifs
  {
    hide Get16, Get32, Rest;
    oifs, ok := [], true;
    var left := v;
    while |left| >= NEXTHOP_HEADER && ok
      invariant ok ==> (HopDevices(v).Ok? <==> HopDevices(left).Ok?)
      invariant ok && HopDevices(left).Ok? ==> HopDevices(v).value == oifs + HopDevices(left).value
      invariant !ok ==> !HopDevices(v).Ok?
      decreases |left|, ok
    {
      var n := Get16(left);
      if n < NEXTHOP_HEADER || n > |left| {
        ok := false;
      } else {
        var rest := left[if Align(n) < |left| then Align(n) else |left|..];
        RestOf(left, n);
        var oif := Get32(left[4..]);
        assert HopDevices(rest).Ok? ==>
          oifs + ([oif] + HopDevices(rest).value) == (oifs + [oif]) + HopDevices(rest).value;
        oifs, left := oifs + [oif], rest;
      }
    }
  }

  method ReadMetrics(v: seq<byte>, mtu0: nat) returns (mtu: nat, ok: bool)
    ensures ok == Walked(v).ok
    ensures ok ==> mtu == MtuOf(Walked(v).attrs, mtu0)
  {
    hide Walked, Get32;
    var attrs;
    attrs, ok := WalkAttrs(v);
    mtu := mtu0;
    for i := 0 to |attrs|
      invariant MtuOf(attrs[i..], mtu) == MtuOf(attrs, mtu0)
    {
      assert attrs[i..][1..] == attrs[i + 1..];
      if attrs[i].kind == RTAX_MTU && |attrs[i].value| >= 4 {
        mtu := Get32(attrs[i].value);
      }
    }
  }

  method ParseRouteAttrs(b: seq<byte>) returns (r: Result<Route>)
    ensures r == ParseAttrs(b)
  {
    var attrs, ok := WalkAttrs(b);
    hide Walked, HopDevices, MtuOf, Get32;
    var route, k := Route(0, []), 0;
    while k < |attrs|
      invariant 0 <= k <= |attrs| && ReadAll(route, attrs[k..]) == ReadAll(Route(0, []), attrs)
    {
      var a := attrs[k];
      assert attrs[k..][1..] == attrs[k + 1..];
      if a.kind == RTA_OIF {
        if |a.value| < 4 {
          return Malformed;
        }
        route := route.(oifs := route.oifs + [Get32(a.value)]);
      } else if a.kind == RTA_METRICS {
        var mtu, fine := ReadMetrics(a.value, route.mtu);
        if !fine {
          return Malformed;
        }
        route := route.(mtu := mtu);
      } else if a.kind == RTA_MULTIPATH {
        var oifs, fine := ReadHops(a.value);
        if !fine {
          return Malformed;
        }
        route := route.(oifs := route.oifs + oifs);
      }
      k := k + 1;
    }
    r := if ok then Ok(route) else Malformed;
  }

  method ParseRouteReply(b: seq<byte>, id: nat) returns (r: Result<Route>)
    ensures r == ParseReply(b, id)
  {
    hide Get16, Get32, Rest, ParseAttrs;
    var left := b;
    while |left| > 0
      invariant ParseReply(left, id) == ParseReply(b, id)
      decreases |left|
    {
      if |left| < MSG_HEADER {
        return Malformed;
      }
      var n := Get32(left);
      if n < MSG_HEADER || n > |left| {
        return Malformed;
      }
      var kind, body, ours := Get16(left[4..]), left[MSG_HEADER..n], Get32(left[8..]) == id;
      RestOf(left, n);
      if ours && kind == NLMSG_ERROR {
        if |body| < 4 {
          return Malformed;
        }
        var code := Get32(body);
        if code != 0 {
          return Errno((0x1_0000_0000 - code) % 0x1_0000_0000);
        }
      } else if ours && kind == RTM_NEWROUTE {
        if |body| < ROUTE_HEADER {
          return Malformed;
        }
        r := ParseRouteAttrs(body[ROUTE_HEADER..]);
        return;
      }
      left := left[if Align(n) < |left| then Align(n) else |left|..];
    }
    r := NoRoute;
  }

  // ---- the size to probe ----

  datatype Size = Size(mtu: nat) | NoDevice | DeviceError(oif: nat) | NoMtu

  /** x is a size the route allows: its metric, or the MTU of one of its devices. */
  ghost predicate Candidate(route: Route, link: nat -> int, x: int) {
    x > 0 && (x == route.mtu || exists i :: 0 <= i < |route.oifs| && link(route.oifs[i]) == x)
  }

  /** The least positive MTU of the route metric and all egress devices; a negative link MTU stands for a
      device that cannot be looked up. */
  method ProbeMtu(route: Route, link: nat -> int) returns (r: Size)
    ensures r.NoDevice? <==> route.oifs == []
    ensures r.DeviceError? <==> exists i :: 0 <= i < |route.oifs| && link(route.oifs[i]) < 0
    ensures r.DeviceError? ==> r.oif in route.oifs && link(r.oif) < 0
    ensures r.Size? ==> Candidate(route, link, r.mtu) && forall x :: Candidate(route, link, x) ==> r.mtu <= x
    ensures r.NoMtu? ==> forall x :: !Candidate(route, link, x)
  {
    if |route.oifs| == 0 {
      return NoDevice;
    }
    var size: nat := 0;
    for k := 0 to |route.oifs|
      invariant forall i :: 0 <= i < k ==> link(route.oifs[i]) >= 0 && (link(route.oifs[i]) > 0 ==>
        0 < size <= link(route.oifs[i]))
      invariant size > 0 ==> exists i :: 0 <= i < k && link(route.oifs[i]) == size
    {
      var mtu := link(route.oifs[k]);
      if mtu < 0 {
        return DeviceError(route.oifs[k]);
      }
      if mtu > 0 && (size == 0 || mtu < size) {
        size := mtu;
      }
    }
    if route.mtu > 0 && (size == 0 || route.mtu < size) {
      size := route.mtu;
    }
    r := if size == 0 then NoMtu else Size(size);
  }
}
