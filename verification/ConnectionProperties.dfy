/** What every run of a delivery client keeps true of each connection it dialled. */
module ConnectionProperties {
  import opened Wrappers
  import opened Octets
  import opened Pdu
  import opened Framing
  import opened Delivery
  import opened Keepalive
  import opened Connection

  // ------------------------------------------------ the links and the record of writes

  /** Framed, whole while held, and decoded by a peer as the units recorded. */
  ghost predicate LinkOk(l: Links, log: seq<seq<Entry>>, i: nat)
    requires i < |l.sent| == |log|
  {
    && Framed(l.sent[i]) && (l.live == Some(i) ==> Whole(l.sent[i]))
    && DecodeAll(l.sent[i]) == Units(log[i])
  }

  ghost predicate Sound(l: Links, log: seq<seq<Entry>>) {
    && l.Valid() && |log| == |l.sent|
    && (l.live.Some? ==> l.live.value == |l.sent| - 1)
    && forall i :: 0 <= i < |l.sent| ==> LinkOk(l, log, i)
  }

  lemma {:induction false} DropIsSound(l: Links, log: seq<seq<Entry>>)
    requires Sound(l, log)
    ensures Sound(Drop(l), log)
  {
    forall i | 0 <= i < |l.sent| ensures LinkOk(Drop(l), log, i) {
      assert LinkOk(l, log, i);
    }
  }

  lemma {:induction false} EmptyIsWhole()
    ensures Whole([]) && Framed([]) && DecodeAll([]) == [] == Units([])
  {
    assert AllSendable([]) && Stream([]) == [];
    WholeIsFramed([]);
  }

  lemma {:induction false} DialIsSound(l: Links, log: seq<seq<Entry>>, ok: bool)
    requires Sound(l, log) && l.live.None?
    ensures Sound(Dial(l, ok), DialLog(log, ok))
  {
    EmptyIsWhole();
    var after, more := Dial(l, ok), DialLog(log, ok);
    forall i | 0 <= i < |after.sent| ensures LinkOk(after, more, i) {
      if i < |l.sent| {
        assert LinkOk(l, log, i);
      }
    }
  }

  /** Writing units behind whole ones, on the octets and the record of one connection. */
  lemma {:induction false} WriteIsRecorded(sent: seq<octet>, es: seq<Entry>, units: seq<PDU>, n: nat, writer: Writer)
    requires Whole(sent) && DecodeAll(sent) == Units(es) && AllSendable(units) && n <= |Stream(units)|
    ensures var after, more := sent + Stream(units)[..n], es + Tag(writer, units[..WholeUnits(Wires(units), n)]);
      Framed(after) && DecodeAll(after) == Units(more) && (n == |Stream(units)| ==> Whole(after))
  {
    WriteKeepsFraming(sent, units, n);
    UnitsAppended(es, writer, units[..WholeUnits(Wires(units), n)]);
  }

  lemma {:induction false} UnitsAppended(es: seq<Entry>, writer: Writer, units: seq<PDU>)
    ensures Units(es + Tag(writer, units)) == Units(es) + units
  {
  }

  lemma {:induction false} OnLastNew(log: seq<seq<Entry>>, es: seq<Entry>)
    ensures OnLast(log + [[]], es) == log + [es]
  {
    assert [] + es == es;
  }

  /** A write on the connection held leaves it sound once it is dropped, or took everything. */
  lemma {:induction false} WriteIsSound(l: Links, log: seq<seq<Entry>>, units: seq<PDU>, n: nat, writer: Writer)
    requires Sound(l, log) && l.live.Some? && AllSendable(units) && n <= |Stream(units)|
    ensures var after := WriteLive(l, Stream(units), n);
      var more := OnLast(log, Tag(writer, units[..WholeUnits(Wires(units), n)]));
      Sound(Drop(after), more) && (n == |Stream(units)| ==> Sound(after, more))
  {
    var i := l.live.value;
    var after := WriteLive(l, Stream(units), n);
    var more := OnLast(log, Tag(writer, units[..WholeUnits(Wires(units), n)]));
    assert LinkOk(l, log, i);
    WriteIsRecorded(l.sent[i], log[i], units, n, writer);
    forall m | 0 <= m < |l.sent|
      ensures LinkOk(Drop(after), more, m) && (n == |Stream(units)| ==> LinkOk(after, more, m))
    {
      assert LinkOk(l, log, m);
    }
  }

  lemma {:induction false} StreamOfSomething(units: seq<PDU>)
    requires AllSendable(units)
    ensures Stream(units) == [] <==> units == []
  {
    if units != [] {
      WiresAreNotEmpty(units);
      assert Wires(units)[0] != [];
    }
  }

  /** The redial of a delivery: the remaining units go out on a connection of their own. */
  lemma {:induction false} RetryIsSound(l: Links, log: seq<seq<Entry>>, rest: seq<PDU>, landed: bool, net: Net)
    requires Sound(Drop(l), log) && AllSendable(rest) && Honest(net.second, Stream(rest))
    ensures Sound(Retry(l, Stream(rest), landed, net).0,
      if net.redial then log + [Tag(Caller, rest[..WholeUnits(Wires(rest), net.second.accepted)])] else log)
  {
    if net.redial {
      DialIsSound(Drop(l), log, true);
      var k := WholeUnits(Wires(rest), net.second.accepted);
      OnLastNew(log, Tag(Caller, rest[..k]));
      StreamOfSomething(rest);
      if Stream(rest) == [] {
        assert Tag(Caller, rest[..k]) == [];
      } else {
        WriteIsSound(Dial(Drop(l), true), log + [[]], rest, net.second.accepted, Caller);
      }
    }
  }

  lemma {:induction false} ConnectedIsSound(l: Links, log: seq<seq<Entry>>, dial: bool)
    requires Sound(l, log) && Connected(l, dial).live.Some?
    ensures Sound(Connected(l, dial), if l.live.None? then log + [[]] else log)
  {
    if l.live.None? {
      DialIsSound(l, log, dial);
    }
  }

  /** A delivery keeps every connection framed and recorded, whatever the units it carries. */
  lemma {:induction false} DeliveryIsSound(l: Links, log: seq<seq<Entry>>, units: seq<PDU>, ends: seq<nat>, net: Net)
    requires Sound(l, log) && DeliveryInput(units, ends, net)
    ensures Sound(Delivery.Deliver(l, Stream(units), ends, net).0, DeliveredLog(log, l, units, net))
  {
    if !l.closed && Connected(l, net.dial).live.Some? {
      var n := net.first.accepted;
      var c, clog := Connected(l, net.dial), if l.live.None? then log + [[]] else log;
      ConnectedIsSound(l, log, net.dial);
      WriteIsSound(c, clog, units, n, Caller);
      var k := WholeUnits(Wires(units), n);
      var written, wlog := WriteLive(c, Stream(units), n), OnLast(clog, Tag(Caller, units[..k]));
      if !net.first.ok {
        RestIsUnsentUnits(units, ends, n);
        var (rest, resuming) := Resume(Stream(units), ends, n);
        RetryIsSound(written, wlog, units[k..], resuming && |rest| < |Stream(units)|, net);
      }
    }
  }

  /** One Keepalive or acknowledgement, written only while its connection is held. */
  lemma {:induction false} WriteOnIsSound(l: Links, log: seq<seq<Entry>>, i: nat, writer: Writer, p: PDU, w: Write)
    requires Sound(l, log) && Sendable(p) && Honest(w, Wire(p))
    ensures Sound(WriteOn(l, i, Wire(p), w), WriteOnLog(log, l, i, writer, p, w))
  {
    if l.live == Some(i) {
      assert [p][1..] == [];
      assert Stream([p]) == Wire(p) by { StreamCons([p]); }
      WriteIsSound(l, log, [p], w.accepted, writer);
      assert Wires([p]) == [Wire(p)] && [Wire(p)][1..] == [];
      WiresAreNotEmpty([p]);
      assert [p][..0] == [] && [p][..1] == [p];
    }
  }

  // -------------------------------------------------------------------- invariants

  /** The numbers of the Keepalives a connection's own timer wrote on it. */
  function TimerNumbers(es: seq<Entry>): seq<Option<u32>> {
    Numbers(By(es, Timer))
  }

  /** The timer's Keepalives on a connection count up from zero, one behind the counter while one is pending. */
  ghost predicate NumberingOk(l: Loop, onWire: seq<Option<u32>>) {
    && onWire == CountUp(|onWire|)
    && |onWire| <= l.issued
    && (l.pending ==> l.looping)
    && (l.looping ==> |onWire| + (if l.pending then 1 else 0) == l.issued)
  }

  ghost predicate Ascending(numbers: seq<u32>) {
    forall i, j :: 0 <= i < j < |numbers| ==> numbers[i] < numbers[j]
  }

  /** Accepted acknowledgements answer numbers issued, each later than the one before. */
  ghost predicate AcknowledgementsOk(l: Loop) {
    && l.refreshes + (if l.slot then 1 else 0) + (if l.signalling then 1 else 0) <= |l.accepted|
    && (l.issued < 0x1_0000_0000 ==>
          Ascending(l.accepted) && forall i :: 0 <= i < |l.accepted| ==> l.accepted[i] < l.issued)
  }

  /** Timers and answerers write keepalive types only. */
  ghost predicate Marked(e: Entry) {
    && (e.writer.Timer? ==> e.unit.typ == TYPE_KEEPALIVE)
    && (e.writer.Answerer? ==> e.unit.typ == TYPE_KEEPALIVE_ACK)
  }

  ghost predicate AllMarked(es: seq<Entry>) {
    forall m :: 0 <= m < |es| ==> Marked(es[m])
  }

  ghost predicate LoopOk(s: State, i: nat)
    requires i < |s.loops| == |s.log|
  {
    NumberingOk(s.loops[i], TimerNumbers(s.log[i])) && AcknowledgementsOk(s.loops[i]) && AllMarked(s.log[i])
  }

  ghost predicate Inv(s: State) {
    Wellformed(s) && Sound(s.links, s.log) && forall i :: 0 <= i < |s.loops| ==> LoopOk(s, i)
  }

  /** No connection gains a Keepalive of its timer's. */
  ghost predicate Quiet(log: seq<seq<Entry>>, more: seq<seq<Entry>>) {
    && |log| <= |more|
    && (forall i :: 0 <= i < |log| && AllMarked(log[i]) ==> AllMarked(more[i]))
    && (forall i :: 0 <= i < |log| ==> TimerNumbers(more[i]) == TimerNumbers(log[i]))
    && (forall i :: |log| <= i < |more| ==> AllMarked(more[i]) && TimerNumbers(more[i]) == [])
  }

  lemma {:induction false} NumbersAppended(es: seq<Entry>, writer: Writer, units: seq<PDU>)
    ensures TimerNumbers(es + Tag(writer, units)) == TimerNumbers(es) + if writer.Timer? then Numbers(units) else []
  {
    ByConcat(es, Tag(writer, units), Timer);
    ByTag(writer, units, Timer);
    NumbersOfConcat(By(es, Timer), By(Tag(writer, units), Timer));
    assert TimerNumbers(es) + [] == TimerNumbers(es);
  }

  lemma {:induction false} QuietOnLast(log: seq<seq<Entry>>, writer: Writer, units: seq<PDU>)
    requires log != [] && !writer.Timer? && AllMarked(Tag(writer, units))
    ensures Quiet(log, OnLast(log, Tag(writer, units)))
  {
    NumbersAppended(log[|log| - 1], writer, units);
  }

  lemma {:induction false} CallersAreQuiet(units: seq<PDU>)
    ensures AllMarked(Tag(Caller, units)) && TimerNumbers(Tag(Caller, units)) == []
  {
    ByTag(Caller, units, Timer);
  }

  lemma {:induction false} QuietAppended(log: seq<seq<Entry>>, es: seq<Entry>)
    requires AllMarked(es) && TimerNumbers(es) == []
    ensures Quiet(log, log + [es])
  {
  }

  lemma {:induction false} QuietNew(log: seq<seq<Entry>>, units: seq<PDU>)
    ensures Quiet(log, log + [Tag(Caller, units)])
  {
    CallersAreQuiet(units);
    QuietAppended(log, Tag(Caller, units));
  }

  lemma {:induction false} QuietThen(a: seq<seq<Entry>>, b: seq<seq<Entry>>, c: seq<seq<Entry>>)
    requires Quiet(a, b) && Quiet(b, c)
    ensures Quiet(a, c)
  {
  }

  lemma {:induction false} WritesAreQuiet(log: seq<seq<Entry>>, dialled: bool, units: seq<PDU>, k: nat,
      retry: Option<nat>)
    requires (!dialled ==> log != []) && k <= |units| && (retry.Some? ==> retry.value <= |units| - k)
    ensures Quiet(log, WritesLog(log, dialled, units, k, retry))
  {
    var base := if dialled then log + [[]] else log;
    assert Quiet(log, base) by {
      QuietNew(log, []);
      assert Tag(Caller, []) == [];
    }
    QuietOnLast(base, Caller, units[..k]);
    var first := OnLast(base, Tag(Caller, units[..k]));
    QuietThen(log, base, first);
    if retry.Some? {
      QuietNew(first, units[k..][..retry.value]);
      QuietThen(log, first, WritesLog(log, dialled, units, k, retry));
    }
  }

  /** Whatever a caller sends, the timers' own Keepalives stay as they were. */
  lemma {:induction false} DeliveryIsQuiet(log: seq<seq<Entry>>, l: Links, units: seq<PDU>, net: Net)
    requires AllSendable(units) && (l.live.Some? ==> log != [])
    ensures Quiet(log, DeliveredLog(log, l, units, net))
  {
    if !l.closed && !(l.live.None? && !net.dial) {
      var k := WholeUnits(Wires(units), net.first.accepted);
      WritesAreQuiet(log, l.live.None?, units, k,
        if net.first.ok || !net.redial then None else Some(WholeUnits(Wires(units)[k..], net.second.accepted)));
    }
  }

  /** Connections that only the links changed on keep their numbering. */
  lemma {:induction false} LinksStep(s: State, after: Links, more: seq<seq<Entry>>)
    requires Inv(s) && Sound(after, more) && Quiet(s.log, more) && (after.closed ==> after.live.None?)
    ensures Inv(WithLinks(s, after, more))
  {
    var t := WithLinks(s, after, more);
    forall i | 0 <= i < |t.loops| ensures LoopOk(t, i) {
      if i < |s.loops| {
        assert LoopOk(s, i);
      }
    }
  }

  lemma {:induction false} LoopStep(s: State, i: nat, l: Loop)
    requires Inv(s) && i < |s.loops|
    requires NumberingOk(l, TimerNumbers(s.log[i])) && AcknowledgementsOk(l)
    ensures Inv(WithLoop(s, i, l))
  {
    var t := WithLoop(s, i, l);
    forall m | 0 <= m < |t.loops| ensures LoopOk(t, m) {
      assert LoopOk(s, m);
    }
  }

  lemma {:induction false} AcknowledgeKeeps(l: Loop, number: u32)
    requires AcknowledgementsOk(l) && !l.signalling && Acceptable(Number(l.issued), Answered(l), number)
    ensures AcknowledgementsOk(l.(accepted := l.accepted + [number], signalling := true))
  {
    if l.issued < 0x1_0000_0000 {
      var more := l.accepted + [number];
      forall i, j | 0 <= i < j < |more| ensures more[i] < more[j] {
        if j == |l.accepted| && i < |l.accepted| - 1 {
          assert l.accepted[i] < l.accepted[|l.accepted| - 1];
        }
      }
    }
  }

  /** The connection held gains a unit of its timer's and its loop moves with it. */
  lemma {:induction false} LiveStep(s: State, after: Links, l: Loop, units: seq<PDU>)
    requires Inv(s) && s.links.live.Some? && AllMarked(Tag(Timer, units))
    requires |after.sent| == |s.links.sent| && Sound(after, OnLast(s.log, Tag(Timer, units)))
    requires after.closed ==> after.live.None?
    requires NumberingOk(l, TimerNumbers(s.log[s.links.live.value]) + Numbers(units)) && AcknowledgementsOk(l)
    ensures var t := WithLinks(s, after, OnLast(s.log, Tag(Timer, units)));
      s.links.live.value < |t.loops| && Inv(WithLoop(t, s.links.live.value, l))
  {
    var i, more := s.links.live.value, OnLast(s.log, Tag(Timer, units));
    var t := WithLoop(WithLinks(s, after, more), i, l);
    NumbersAppended(s.log[i], Timer, units);
    forall m | 0 <= m < |t.loops| ensures LoopOk(t, m) {
      assert LoopOk(s, m);
    }
  }

  lemma {:induction false} NumberingAfterWrite(l: Loop, onWire: seq<Option<u32>>, ok: bool)
    requires NumberingOk(l, onWire) && l.pending && l.issued > 0
    ensures NumberingOk(l.(pending := false, looping := ok), onWire + [Some(Number(l.issued - 1))])
    ensures NumberingOk(l.(pending := false, looping := false), onWire + [])
  {
    assert onWire + [] == onWire;
    assert |onWire + [Some(Number(l.issued - 1))]| == l.issued;
    assert CountUp(l.issued) == CountUp(l.issued - 1) + [Some(Number(l.issued - 1))];
  }

  lemma {:induction false} KeepaliveNumbers(number: u32)
    ensures Numbers([KeepaliveOf(number)]) == [Some(number)] && Numbers([]) == []
    ensures AllMarked(Tag(Timer, [KeepaliveOf(number)])) && AllMarked(Tag(Timer, []))
    ensures AllMarked(Tag(Answerer, [AckOf(number)])) && AllMarked(Tag(Answerer, []))
  {
    KeepalivesAreSendable(TYPE_KEEPALIVE, number);
    assert [KeepaliveOf(number)][1..] == [];
  }

  /** The timer's Keepalive on the connection it belongs to, written whole or in part. */
  lemma {:induction false} TimerWrites(s: State, p: PDU, number: u32, w: Write, l: Loop)
    requires Inv(s) && s.links.live.Some? && p == KeepaliveOf(number) && Sendable(p) && Honest(w, Wire(p))
    requires AcknowledgementsOk(l)
    requires var onWire := TimerNumbers(s.log[s.links.live.value]);
      if w.accepted == |Wire(p)| then NumberingOk(l, onWire + [Some(number)]) else NumberingOk(l, onWire + [])
    ensures var i := s.links.live.value;
      var t := WithLinks(s, WriteOn(s.links, i, Wire(p), w), WriteOnLog(s.log, s.links, i, Timer, p, w));
      i < |t.loops| && Inv(WithLoop(t, i, l))
  {
    var i := s.links.live.value;
    KeepaliveNumbers(number);
    WriteOnIsSound(s.links, s.log, i, Timer, p, w);
    LiveStep(s, WriteOn(s.links, i, Wire(p), w), l, if w.accepted == |Wire(p)| then [p] else []);
  }

  lemma {:induction false} LiveKeepaliveKeeps(s: State, i: nat, w: Write)
    requires Inv(s) && Enabled(s, WriteKeepalive(i, w)) && s.links.live == Some(i)
    ensures Inv(Apply(s, WriteKeepalive(i, w)))
  {
    var l, number := s.loops[i], Number(s.loops[i].issued - 1);
    var p, next := KeepaliveOf(number), l.(pending := false, looping := w.ok);
    KeepalivesAreSendable(TYPE_KEEPALIVE, number);
    assert LoopOk(s, i);
    NumberingAfterWrite(l, TimerNumbers(s.log[i]), w.ok);
    TimerWrites(s, p, number, w, next);
    assert Apply(s, WriteKeepalive(i, w))
      == WithLoop(WithLinks(s, WriteOn(s.links, i, Wire(p), w), WriteOnLog(s.log, s.links, i, Timer, p, w)), i, next);
  }

  lemma {:induction false} StaleKeepaliveKeeps(s: State, i: nat, w: Write)
    requires Inv(s) && Enabled(s, WriteKeepalive(i, w)) && s.links.live != Some(i)
    ensures Inv(Apply(s, WriteKeepalive(i, w)))
  {
    var l := s.loops[i];
    assert LoopOk(s, i);
    NumberingAfterWrite(l, TimerNumbers(s.log[i]), w.ok);
    assert TimerNumbers(s.log[i]) + [] == TimerNumbers(s.log[i]);
    LoopStep(s, i, l.(pending := false, looping := false));
    assert WithLinks(s, s.links, s.log) == s;
  }

  /** The Keepalive the timer took: written whole, written in part, or found stale. */
  lemma {:induction false} WriteKeepaliveKeeps(s: State, i: nat, w: Write)
    requires Inv(s) && Enabled(s, WriteKeepalive(i, w))
    ensures Inv(Apply(s, WriteKeepalive(i, w)))
  {
    if s.links.live == Some(i) {
      LiveKeepaliveKeeps(s, i, w);
    } else {
      StaleKeepaliveKeeps(s, i, w);
    }
  }

  lemma {:induction false} AnswerKeeps(s: State, i: nat, number: u32, w: Write)
    requires Inv(s) && Enabled(s, AnswerKeepalive(i, number, w))
    ensures Inv(Apply(s, AnswerKeepalive(i, number, w)))
  {
    var p := AckOf(number);
    KeepalivesAreSendable(TYPE_KEEPALIVE_ACK, number);
    KeepaliveNumbers(number);
    WriteOnIsSound(s.links, s.log, i, Answerer, p, w);
    if s.links.live == Some(i) {
      QuietOnLast(s.log, Answerer, if w.accepted == |Wire(p)| then [p] else []);
    }
    LinksStep(s, WriteOn(s.links, i, Wire(p), w), WriteOnLog(s.log, s.links, i, Answerer, p, w));
  }

  lemma {:induction false} ExpireKeeps(s: State, i: nat, dial: bool)
    requires Inv(s) && Enabled(s, Expire(i, dial))
    ensures Inv(Apply(s, Expire(i, dial)))
  {
    assert LoopOk(s, i);
    LoopStep(s, i, s.loops[i].(looping := false));
    if s.links.live == Some(i) {
      DropIsSound(s.links, s.log);
      DialIsSound(Drop(s.links), s.log, dial);
      QuietNew(s.log, []);
      assert Tag(Caller, []) == [];
      LinksStep(WithLoop(s, i, s.loops[i].(looping := false)), Dial(Drop(s.links), dial), DialLog(s.log, dial));
    }
  }

  lemma {:induction false} CloseKeeps(s: State)
    requires Inv(s)
    ensures Inv(Apply(s, Close))
  {
    var t := Apply(s, Close);
    forall i | 0 <= i < |t.loops| ensures LoopOk(t, i) && LinkOk(t.links, t.log, i) {
      assert LoopOk(s, i) && LinkOk(s.links, s.log, i);
    }
  }

  /** How a timer or a reader moves its loop without writing. */
  ghost function Moved(l: Loop, a: Action): Loop {
    match a
    case Take(_) => l.(issued := l.issued + 1, pending := true)
    case Acknowledge(_, n) =>
      if Acceptable(Number(l.issued), Answered(l), n) then
        l.(accepted := l.accepted + [n], signalling := true)
      else l
    case Signal(_) => l.(signalling := false, slot := true)
    case Refresh(_) => l.(slot := false, refreshes := l.refreshes + 1)
    case _ => l.(looping := false)
  }

  lemma {:induction false} MovedKeeps(l: Loop, onWire: seq<Option<u32>>, a: Action)
    requires NumberingOk(l, onWire) && AcknowledgementsOk(l)
    requires a.Take? ==> l.looping && !l.pending
    requires a.Acknowledge? ==> !l.signalling
    requires a.Signal? ==> l.signalling
    requires a.Refresh? ==> l.slot
    requires a.LoopStops? ==> !l.pending
    requires a.Take? || a.Acknowledge? || a.Signal? || a.Refresh? || a.LoopStops?
    ensures NumberingOk(Moved(l, a), onWire) && AcknowledgementsOk(Moved(l, a))
  {
    if a.Acknowledge? && Acceptable(Number(l.issued), Answered(l), a.number) {
      AcknowledgeKeeps(l, a.number);
    }
  }

  lemma {:induction false} TimerAndReaderKeep(s: State, a: Action)
    requires Inv(s) && Enabled(s, a)
    requires a.Take? || a.Acknowledge? || a.Signal? || a.Refresh? || a.LoopStops?
    ensures Inv(Apply(s, a))
  {
    var i := a.i;
    assert LoopOk(s, i);
    MovedKeeps(s.loops[i], TimerNumbers(s.log[i]), a);
    LoopStep(s, i, Moved(s.loops[i], a));
    assert Apply(s, a) == WithLoop(s, i, Moved(s.loops[i], a));
  }

  /** Every action, from every state that satisfies the invariant, keeps it. */
  lemma {:induction false} StepKeeps(s: State, a: Action)
    requires Inv(s) && Enabled(s, a)
    ensures Inv(Apply(s, a))
  {
    match a {
      case Deliver(units, ends, net) =>
        DeliveryIsSound(s.links, s.log, units, ends, net);
        DeliveryIsQuiet(s.log, s.links, units, net);
        LinksStep(s, Delivery.Deliver(s.links, Stream(units), ends, net).0, DeliveredLog(s.log, s.links, units, net));
      case WriteKeepalive(i, w) =>
        WriteKeepaliveKeeps(s, i, w);
      case AnswerKeepalive(i, n, w) =>
        AnswerKeeps(s, i, n, w);
      case ProtocolFault(i) =>
        DropIsSound(s.links, s.log);
        LinksStep(s, DropIfLive(s.links, i), s.log);
      case Expire(i, dial) =>
        ExpireKeeps(s, i, dial);
      case Close =>
        CloseKeeps(s);
      case _ =>
        TimerAndReaderKeep(s, a);
    }
  }

  // -------------------------------------------------------------------------- runs

  ghost predicate Run(s: State, actions: seq<Action>)
    decreases |actions|
  {
    Wellformed(s) &&
    (actions != [] ==> Enabled(s, actions[0]) && Run(Apply(s, actions[0]), actions[1..]))
  }

  ghost function Exec(s: State, actions: seq<Action>): State
    requires Run(s, actions)
    decreases |actions|
  {
    if actions == [] then s else Exec(Apply(s, actions[0]), actions[1..])
  }

  function Initial(keepalives: bool): State {
    State(Links([], None, false), [], keepalives, [])
  }

  lemma {:induction false} RunKeeps(s: State, actions: seq<Action>)
    requires Inv(s) && Run(s, actions)
    ensures Inv(Exec(s, actions))
    decreases |actions|
  {
    if actions != [] {
      StepKeeps(s, actions[0]);
      RunKeeps(Apply(s, actions[0]), actions[1..]);
    }
  }

  /**
   Over every interleaving and every batch, each connection carries whole PDUs followed by at
   most one part of a PDU; a peer decodes from it exactly the units recorded, in order; and
   the Keepalives its timer wrote are numbered 0, 1, 2, ... with no gap.
   */
  lemma {:induction false} ConnectionsStayFramedAndNumbered(keepalives: bool, actions: seq<Action>)
    requires Run(Initial(keepalives), actions)
    ensures var s := Exec(Initial(keepalives), actions);
      && |s.log| == |s.links.sent|
      && forall i :: 0 <= i < |s.links.sent| ==>
        && Framed(s.links.sent[i])
        && DecodeAll(s.links.sent[i]) == Units(s.log[i])
        && TimerNumbers(s.log[i]) == CountUp(|TimerNumbers(s.log[i])|)
  {
    RunKeeps(Initial(keepalives), actions);
    var s := Exec(Initial(keepalives), actions);
    forall i | 0 <= i < |s.links.sent|
      ensures Framed(s.links.sent[i]) && DecodeAll(s.links.sent[i]) == Units(s.log[i])
      ensures TimerNumbers(s.log[i]) == CountUp(|TimerNumbers(s.log[i])|)
    {
      assert LinkOk(s.links, s.log, i) && LoopOk(s, i);
    }
  }

  // ------------------------------------------------------------- what is final

  lemma {:induction false} DeliverWritesOnlyLive(l: Links, b: seq<octet>, ends: seq<nat>, net: Net, i: nat)
    requires l.Valid() && Within(ends, 0, |b|) && HonestNet(b, ends, net)
    requires i < |l.sent| && l.live != Some(i)
    ensures var after := Delivery.Deliver(l, b, ends, net).0;
      i < |after.sent| && after.sent[i] == l.sent[i] && after.live != Some(i)
  {
  }

  lemma {:induction false} WriteOnWritesOnlyLive(l: Links, m: nat, b: seq<octet>, w: Write, i: nat)
    requires l.Valid() && Honest(w, b) && i < |l.sent| && l.live != Some(i)
    ensures var after := WriteOn(l, m, b, w);
      i < |after.sent| && after.sent[i] == l.sent[i] && after.live != Some(i)
  {
  }

  /** No step writes on a connection that is not held. */
  lemma {:induction false} OnlyLiveIsWritten(s: State, a: Action, i: nat)
    requires Wellformed(s) && Enabled(s, a)
    requires i < |s.links.sent| && s.links.live != Some(i)
    ensures i < |Apply(s, a).links.sent| && Apply(s, a).links.sent[i] == s.links.sent[i]
    ensures Apply(s, a).links.live != Some(i)
  {
    match a {
      case Deliver(units, ends, net) => DeliverWritesOnlyLive(s.links, Stream(units), ends, net, i);
      case WriteKeepalive(m, w) =>
        WriteOnWritesOnlyLive(s.links, m, Wire(KeepaliveOf(Number(s.loops[m].issued - 1))), w, i);
      case AnswerKeepalive(m, n, w) => WriteOnWritesOnlyLive(s.links, m, Wire(AckOf(n)), w, i);
      case _ =>
    }
  }

  /** A connection that is no longer held is never written again, nor held. */
  lemma {:induction false} DroppedIsFinal(s: State, actions: seq<Action>, i: nat)
    requires Run(s, actions) && i < |s.links.sent| && s.links.live != Some(i)
    ensures var t := Exec(s, actions);
      i < |t.links.sent| && t.links.sent[i] == s.links.sent[i] && t.links.live != Some(i)
    decreases |actions|
  {
    if actions != [] {
      OnlyLiveIsWritten(s, actions[0], i);
      DroppedIsFinal(Apply(s, actions[0]), actions[1..], i);
    }
  }

  /** A connection left with part of a PDU on it is never written again, whatever follows. */
  lemma {:induction false} TornConnectionIsFinal(s: State, actions: seq<Action>, i: nat)
    requires Inv(s) && Run(s, actions)
    requires i < |s.links.sent| && !Whole(s.links.sent[i])
    ensures i < |Exec(s, actions).links.sent| && Exec(s, actions).links.sent[i] == s.links.sent[i]
  {
    assert LinkOk(s.links, s.log, i);
    DroppedIsFinal(s, actions, i);
  }

  /** After Close nothing is dialled and nothing is written, whatever follows. */
  lemma {:induction false} ClosedIsFinal(s: State, actions: seq<Action>)
    requires Run(s, actions) && s.links.closed
    ensures Exec(s, actions).links == s.links
    decreases |actions|
  {
    if actions != [] {
      assert Apply(s, actions[0]).links == s.links;
      ClosedIsFinal(Apply(s, actions[0]), actions[1..]);
    }
  }

  lemma {:induction false} AscendingIsShort(numbers: seq<u32>, bound: nat)
    requires Ascending(numbers) && forall i :: 0 <= i < |numbers| ==> numbers[i] < bound
    ensures |numbers| <= bound
  {
    if numbers != [] {
      var last := numbers[|numbers| - 1];
      AscendingIsShort(numbers[..|numbers| - 1], last);
    }
  }

  /**
   On a connection that issued fewer than 2^32 Keepalives, accepted acknowledgements
   strictly increase and were all issued, so the deadline is refreshed at most as often as
   Keepalives were sent, whatever a peer replays, reorders or invents.
   */
  lemma {:induction false} RefreshesAreBounded(keepalives: bool, actions: seq<Action>, i: nat)
    requires Run(Initial(keepalives), actions)
    requires i < |Exec(Initial(keepalives), actions).loops|
    requires Exec(Initial(keepalives), actions).loops[i].issued < 0x1_0000_0000
    ensures var l := Exec(Initial(keepalives), actions).loops[i];
      && Ascending(l.accepted)
      && (forall m :: 0 <= m < |l.accepted| ==> l.accepted[m] < l.issued)
      && l.refreshes <= |l.accepted| <= l.issued
  {
    RunKeeps(Initial(keepalives), actions);
    var s := Exec(Initial(keepalives), actions);
    assert LoopOk(s, i);
    AscendingIsShort(s.loops[i].accepted, s.loops[i].issued);
  }
}
