/**
 Everything that writes on a delivery connection, interleaved: deliveries, Keepalives and
 their acknowledgements, expiry, protocol errors and Close (x2x3/client.go and
 x2x3/keepalive.go). Each action below is one region held under the client's lock, or one
 step a connection's timer or reader takes outside it.
 */
module Connection {
  import opened Wrappers
  import opened Octets
  import opened Pdu
  import opened Framing
  import opened Delivery
  import opened Keepalive

  /** The keepalive state that belongs to one connection. */
  datatype Loop = Loop(
    issued: nat,           // numbers taken so far
    pending: bool,         // the timer has taken a number and not yet written it
    looping: bool,         // the timer runs
    accepted: seq<u32>,    // acknowledgements accepted, in order
    signalling: bool,      // the reader has accepted one and not yet signalled the timer
    slot: bool,            // the one-slot channel to the timer
    refreshes: nat)        // deadlines refreshed

  /** Who writes on a connection: callers of Send, its keepalive timer, its reader answering. */
  datatype Writer = Caller | Timer | Answerer

  /** A unit a write took whole, and whose write it was. */
  datatype Entry = Entry(writer: Writer, unit: PDU)

  /** The clients' links and timers, and for each connection the units written on it whole. */
  datatype State = State(links: Links, loops: seq<Loop>, keepalives: bool, log: seq<seq<Entry>>)

  datatype Action =
    | Deliver(units: seq<PDU>, ends: seq<nat>, net: Net)
    | Take(i: nat)
    | WriteKeepalive(i: nat, w: Write)
    | Acknowledge(i: nat, number: u32)
    | Signal(i: nat)
    | Refresh(i: nat)
    | AnswerKeepalive(i: nat, number: u32, w: Write)
    | ProtocolFault(i: nat)
    | Expire(i: nat, dial: bool)
    | LoopStops(i: nat)
    | Close

  function NewLoop(keepalives: bool): Loop {
    Loop(0, false, keepalives, [], false, false, 0)
  }

  /** One loop for every connection dialled. */
  function Grow(loops: seq<Loop>, n: nat, keepalives: bool): (r: seq<Loop>)
    ensures |r| == if |loops| <= n then n else |loops|
    ensures forall i :: 0 <= i < |loops| ==> r[i] == loops[i]
    ensures forall i :: |loops| <= i < |r| ==> r[i] == NewLoop(keepalives)
  {
    loops + seq(if |loops| <= n then n - |loops| else 0, _ => NewLoop(keepalives))
  }

  function Answered(l: Loop): Option<u32> {
    if l.accepted == [] then None else Some(l.accepted[|l.accepted| - 1])
  }

  /** writeOn: written only while i is still the connection held. */
  function WriteOn(l: Links, i: nat, b: seq<octet>, w: Write): Links
    requires l.Valid() && Honest(w, b)
  {
    if l.live != Some(i) then l
    else if w.ok then WriteLive(l, b, w.accepted)
    else Drop(WriteLive(l, b, w.accepted))
  }

  function DropIfLive(l: Links, i: nat): Links {
    if l.live == Some(i) then Drop(l) else l
  }

  // ------------------------------------------------------------------ the record of writes

  function Tag(writer: Writer, units: seq<PDU>): (es: seq<Entry>)
    ensures |es| == |units| && forall m :: 0 <= m < |es| ==> es[m] == Entry(writer, units[m])
  {
    seq(|units|, m requires 0 <= m < |units| => Entry(writer, units[m]))
  }

  /** The units themselves. */
  function Units(es: seq<Entry>): (units: seq<PDU>)
    ensures |units| == |es| && forall m :: 0 <= m < |es| ==> units[m] == es[m].unit
  {
    seq(|es|, m requires 0 <= m < |es| => es[m].unit)
  }

  /** Added behind what the connection dialled last has taken. */
  function OnLast(log: seq<seq<Entry>>, es: seq<Entry>): seq<seq<Entry>>
    requires log != []
  {
    log[|log| - 1 := log[|log| - 1] + es]
  }

  function DialLog(log: seq<seq<Entry>>, ok: bool): seq<seq<Entry>> {
    if ok then log + [[]] else log
  }

  /** A first write that takes k units whole, and a retry on a connection of its own that takes j more. */
  function WritesLog(log: seq<seq<Entry>>, dialled: bool, units: seq<PDU>, k: nat, retry: Option<nat>): seq<seq<Entry>>
    requires (!dialled ==> log != []) && k <= |units| && (retry.Some? ==> retry.value <= |units| - k)
  {
    var first := OnLast(if dialled then log + [[]] else log, Tag(Caller, units[..k]));
    if retry.None? then first else first + [Tag(Caller, units[k..][..retry.value])]
  }

  /** What one delivery's writes take whole, and where, counted from the network's answers. */
  function DeliveredLog(log: seq<seq<Entry>>, l: Links, units: seq<PDU>, net: Net): seq<seq<Entry>>
    requires AllSendable(units) && (l.live.Some? ==> log != [])
  {
    if l.closed || (l.live.None? && !net.dial) then log
    else
      var k := WholeUnits(Wires(units), net.first.accepted);
      WritesLog(log, l.live.None?, units, k,
        if net.first.ok || !net.redial then None else Some(WholeUnits(Wires(units)[k..], net.second.accepted)))
  }

  /** One unit written while connection i is held, taken whole or not. */
  function WriteOnLog(log: seq<seq<Entry>>, l: Links, i: nat, writer: Writer, p: PDU, w: Write): seq<seq<Entry>>
    requires Sendable(p) && (l.live.Some? ==> log != [])
  {
    if l.live != Some(i) then log
    else OnLast(log, Tag(writer, if w.accepted == |Wire(p)| then [p] else []))
  }

  // ------------------------------------------------------------------------- the steps

  /** The connection held is the one dialled last. */
  ghost predicate Wellformed(s: State) {
    && s.links.Valid() && |s.loops| == |s.log| == |s.links.sent|
    && (s.links.closed ==> s.links.live.None?)
    && (s.links.live.Some? ==> s.links.live.value == |s.links.sent| - 1)
  }

  ghost predicate DeliveryInput(units: seq<PDU>, ends: seq<nat>, net: Net) {
    && AllSendable(units) && units != []
    && Boundaries(Wires(units), ends)
    && Within(ends, 0, |Stream(units)|)
    && HonestNet(Stream(units), ends, net)
  }

  ghost predicate Enabled(s: State, a: Action)
    requires Wellformed(s)
  {
    match a
    case Deliver(units, ends, net) => DeliveryInput(units, ends, net)
    case Take(i) => i < |s.loops| && s.loops[i].looping && !s.loops[i].pending
    case WriteKeepalive(i, w) =>
      i < |s.loops| && s.loops[i].pending && s.loops[i].issued > 0 &&
      Honest(w, Wire(KeepaliveOf(Number(s.loops[i].issued - 1))))
    case Acknowledge(i, _) => i < |s.loops| && !s.loops[i].signalling
    case Signal(i) => i < |s.loops| && s.loops[i].signalling
    case Refresh(i) => i < |s.loops| && s.loops[i].looping && !s.loops[i].pending && s.loops[i].slot
    case AnswerKeepalive(i, n, w) => i < |s.loops| && !s.loops[i].signalling && Honest(w, Wire(AckOf(n)))
    case ProtocolFault(i) => i < |s.loops|
    case Expire(i, _) => i < |s.loops| && s.loops[i].looping && !s.loops[i].pending
    case LoopStops(i) =>
      i < |s.loops| && s.loops[i].looping && !s.loops[i].pending && s.links.live != Some(i)
    case Close => true
  }

  function WithLoop(s: State, i: nat, l: Loop): State
    requires i < |s.loops|
  {
    s.(loops := s.loops[i := l])
  }

  function WithLinks(s: State, links: Links, log: seq<seq<Entry>>): State {
    s.(links := links, log := log, loops := Grow(s.loops, |links.sent|, s.keepalives))
  }

  ghost function Apply(s: State, a: Action): State
    requires Wellformed(s) && Enabled(s, a)
  {
    match a
    case Deliver(units, ends, net) =>
      WithLinks(s, Delivery.Deliver(s.links, Stream(units), ends, net).0, DeliveredLog(s.log, s.links, units, net))
    case Take(i) =>
      WithLoop(s, i, s.loops[i].(issued := s.loops[i].issued + 1, pending := true))
    case WriteKeepalive(i, w) =>
      var l := s.loops[i];
      var p := KeepaliveOf(Number(l.issued - 1));
      KeepalivesAreSendable(TYPE_KEEPALIVE, Number(l.issued - 1));
      var written := s.links.live == Some(i) && w.ok;
      WithLoop(WithLinks(s, WriteOn(s.links, i, Wire(p), w), WriteOnLog(s.log, s.links, i, Timer, p, w)), i,
               l.(pending := false, looping := l.looping && written))
    case Acknowledge(i, n) =>
      var l := s.loops[i];
      if Acceptable(Number(l.issued), Answered(l), n) then
        WithLoop(s, i, l.(accepted := l.accepted + [n], signalling := true))
      else s
    case Signal(i) => WithLoop(s, i, s.loops[i].(signalling := false, slot := true))
    case Refresh(i) => WithLoop(s, i, s.loops[i].(slot := false, refreshes := s.loops[i].refreshes + 1))
    case AnswerKeepalive(i, n, w) =>
      KeepalivesAreSendable(TYPE_KEEPALIVE_ACK, n);
      WithLinks(s, WriteOn(s.links, i, Wire(AckOf(n)), w), WriteOnLog(s.log, s.links, i, Answerer, AckOf(n), w))
    case ProtocolFault(i) => WithLinks(s, DropIfLive(s.links, i), s.log)
    case Expire(i, dial) =>
      var stopped := WithLoop(s, i, s.loops[i].(looping := false));
      if s.links.live == Some(i) then WithLinks(stopped, Dial(Drop(s.links), dial), DialLog(s.log, dial)) else stopped
    case LoopStops(i) => WithLoop(s, i, s.loops[i].(looping := false))
    case Close => s.(links := s.links.(live := None, closed := true))
  }

  // ------------------------------------------------------------- octets on the wire

  /** Whole units and nothing more. */
  ghost predicate Whole(b: seq<octet>) {
    exists units :: AllSendable(units) && b == Stream(units)
  }

  /** Whole units, then at most one part of a unit. */
  ghost predicate Framed(b: seq<octet>) {
    exists units, t :: AllSendable(units) && Partial(t) && b == Stream(units) + t
  }

  /** The numbers of the Keepalives among the units, in order. */
  function Numbers(units: seq<PDU>): seq<Option<u32>> {
    if units == [] then []
    else (if units[0].typ == TYPE_KEEPALIVE then [SequenceIn(units[0].attributes)] else []) + Numbers(units[1..])
  }

  /** 0, 1, 2, ... restarting after 2^32 - 1. */
  function CountUp(m: nat): (r: seq<Option<u32>>)
    ensures |r| == m
  {
    if m == 0 then [] else CountUp(m - 1) + [Some(Number(m - 1))]
  }

  /** The units one party wrote, in order. */
  function By(es: seq<Entry>, writer: Writer): seq<PDU> {
    if es == [] then []
    else By(es[..|es| - 1], writer) + if es[|es| - 1].writer == writer then [es[|es| - 1].unit] else []
  }

  lemma {:induction false} ByConcat(a: seq<Entry>, b: seq<Entry>, writer: Writer)
    ensures By(a + b, writer) == By(a, writer) + By(b, writer)
  {
    if b == [] {
      assert a + b == a;
    } else {
      var n := |b| - 1;
      ByConcat(a, b[..n], writer);
      assert (a + b)[..|a| + n] == a + b[..n];
    }
  }

  lemma {:induction false} ByTag(writer: Writer, units: seq<PDU>, other: Writer)
    ensures By(Tag(writer, units), other) == if other == writer then units else []
  {
    if units != [] {
      var n := |units| - 1;
      ByTag(writer, units[..n], other);
      assert Tag(writer, units)[..n] == Tag(writer, units[..n]);
      assert units == units[..n] + [units[n]];
    }
  }

  lemma {:induction false} WholeIsFramed(b: seq<octet>)
    requires Whole(b)
    ensures Framed(b)
  {
    var units :| AllSendable(units) && b == Stream(units);
    assert b == Stream(units) + [] && Partial([]);
  }

  lemma {:induction false} NumbersOfConcat(a: seq<PDU>, b: seq<PDU>)
    ensures Numbers(a + b) == Numbers(a) + Numbers(b)
  {
    if a == [] {
      assert a + b == b;
    } else {
      assert (a + b)[1..] == a[1..] + b;
      NumbersOfConcat(a[1..], b);
      var head := if a[0].typ == TYPE_KEEPALIVE then [SequenceIn(a[0].attributes)] else [];
      assert head + (Numbers(a[1..]) + Numbers(b)) == head + Numbers(a[1..]) + Numbers(b);
    }
  }

  /** Whole units, then these, then a part: framed, and decoded as both. */
  lemma {:induction false} FramedTogether(us: seq<PDU>, more: seq<PDU>, t: seq<octet>, cut: seq<octet>)
    requires AllSendable(us) && AllSendable(more) && Partial(t) && cut == Stream(more) + t
    ensures Framed(Stream(us) + cut)
    ensures DecodeAll(Stream(us) + cut) == us + more
  {
    StreamOfConcat(us, more);
    Associate(Stream(us), Stream(more), t);
    assert Stream(us) + cut == Stream(us + more) + t;
    PartialDecodesToNothing(t);
    DecodeAllOfStream(us + more, t);
    assert us + more + [] == us + more;
  }

  lemma {:induction false} DecodeAllWhole(us: seq<PDU>)
    requires AllSendable(us)
    ensures DecodeAll(Stream(us)) == us
  {
    DecodeAllOfStream(us, []);
    assert Stream(us) + [] == Stream(us) && DecodeAll([]) == [] && us + [] == us;
  }

  /** Writing part of a batch of units behind whole ones. */
  lemma {:induction false} WriteKeepsFraming(before: seq<octet>, units: seq<PDU>, n: nat)
    requires Whole(before) && AllSendable(units) && n <= |Stream(units)|
    ensures var after := before + Stream(units)[..n];
      && Framed(after)
      && DecodeAll(after) == DecodeAll(before) + units[..WholeUnits(Wires(units), n)]
      && (n == |Stream(units)| ==> Whole(after))
  {
    var us :| AllSendable(us) && before == Stream(us);
    CutStream(units, n);
    var k, t := WholeUnits(Wires(units), n), Remnant(Wires(units), n);
    FramedTogether(us, units[..k], t, Stream(units)[..n]);
    DecodeAllWhole(us);
    if n == |Stream(units)| {
      StreamOfConcat(us, units);
      assert Stream(units)[..n] == Stream(units);
    }
  }
}
