/**
 What a peer has after any run of a delivery client, over all the connections it dialled: the
 product of every delivery in order, and when the Keepalives on a connection count up.
 */
module ConnectionRuns {
  import opened Wrappers
  import opened Octets
  import opened Pdu
  import opened Framing
  import opened Delivery
  import opened Keepalive
  import opened Connection
  import opened ConnectionProperties

  // -------------------------------------------------------- all connections, in dial order

  function Flat(log: seq<seq<Entry>>): seq<Entry> {
    if log == [] then [] else Flat(log[..|log| - 1]) + log[|log| - 1]
  }

  /** What a peer decodes from each connection, one connection behind another as dialled. */
  function Received(sent: seq<seq<octet>>): seq<PDU> {
    if sent == [] then [] else Received(sent[..|sent| - 1]) + DecodeAll(sent[|sent| - 1])
  }

  lemma {:induction false} FlatSnoc(log: seq<seq<Entry>>, es: seq<Entry>)
    ensures Flat(log + [es]) == Flat(log) + es
  {
    assert (log + [es])[..|log|] == log;
  }

  lemma {:induction false} FlatOnLast(log: seq<seq<Entry>>, es: seq<Entry>)
    requires log != []
    ensures Flat(OnLast(log, es)) == Flat(log) + es
  {
    var n := |log| - 1;
    assert OnLast(log, es)[..n] == log[..n];
    assert Flat(log[..n]) + (log[n] + es) == Flat(log[..n]) + log[n] + es;
  }

  lemma {:induction false} ReceivedIsRecorded(sent: seq<seq<octet>>, log: seq<seq<Entry>>)
    requires |sent| == |log| && forall i :: 0 <= i < |sent| ==> DecodeAll(sent[i]) == Units(log[i])
    ensures Received(sent) == Units(Flat(log))
  {
    if sent != [] {
      var n := |sent| - 1;
      ReceivedIsRecorded(sent[..n], log[..n]);
      assert Units(Flat(log[..n]) + log[n]) == Units(Flat(log[..n])) + Units(log[n]);
    }
  }

  // ------------------------------------------------------------ what the deliveries landed

  /** The units a delivery lands, counted from the network's answers alone. */
  ghost function LandedBy(s: State, a: Action): seq<PDU>
    requires Wellformed(s) && Enabled(s, a)
  {
    match a
    case Deliver(units, ends, net) =>
      DeliveryIsPrefix(s.links, units, ends, net);
      units[..Landed(Wires(units), s.links, net)]
    case _ => []
  }

  ghost function LandedIn(s: State, actions: seq<Action>): seq<PDU>
    requires Run(s, actions)
    decreases |actions|
  {
    if actions == [] then [] else LandedBy(s, actions[0]) + LandedIn(Apply(s, actions[0]), actions[1..])
  }

  function FromCallers(log: seq<seq<Entry>>): seq<PDU> {
    By(Flat(log), Caller)
  }

  lemma {:induction false} AppendedByCallers(before: seq<Entry>, after: seq<Entry>, writer: Writer, units: seq<PDU>)
    requires after == before + Tag(writer, units)
    ensures By(after, Caller) == By(before, Caller) + if writer.Caller? then units else []
  {
    ByConcat(before, Tag(writer, units), Caller);
    ByTag(writer, units, Caller);
    assert By(before, Caller) + [] == By(before, Caller);
  }

  lemma {:induction false} Regroup<T>(a: seq<T>, b: seq<T>, c: seq<T>)
    ensures a + b + c == a + (b + c)
  {
  }

  lemma {:induction false} FirstWriteLands(log: seq<seq<Entry>>, dialled: bool, units: seq<PDU>)
    requires !dialled ==> log != []
    ensures FromCallers(OnLast(if dialled then log + [[]] else log, Tag(Caller, units))) == FromCallers(log) + units
  {
    var base := if dialled then log + [[]] else log;
    FlatSnoc(log, []);
    assert Flat(log) + [] == Flat(log);
    FlatOnLast(base, Tag(Caller, units));
    AppendedByCallers(Flat(log), Flat(OnLast(base, Tag(Caller, units))), Caller, units);
  }

  lemma {:induction false} SecondWriteLands(log: seq<seq<Entry>>, units: seq<PDU>)
    ensures FromCallers(log + [Tag(Caller, units)]) == FromCallers(log) + units
  {
    FlatSnoc(log, Tag(Caller, units));
    AppendedByCallers(Flat(log), Flat(log + [Tag(Caller, units)]), Caller, units);
  }

  lemma {:induction false} WritesLand(log: seq<seq<Entry>>, dialled: bool, units: seq<PDU>, k: nat, retry: Option<nat>)
    requires (!dialled ==> log != []) && k <= |units| && (retry.Some? ==> retry.value <= |units| - k)
    ensures FromCallers(WritesLog(log, dialled, units, k, retry))
      == FromCallers(log) + units[..k + if retry.Some? then retry.value else 0]
  {
    FirstWriteLands(log, dialled, units[..k]);
    if retry.Some? {
      SecondWriteLands(OnLast(if dialled then log + [[]] else log, Tag(Caller, units[..k])), units[k..][..retry.value]);
      PrefixOfRest(units, k, retry.value);
      Regroup(FromCallers(log), units[..k], units[k..][..retry.value]);
    }
  }

  /** The units a delivery's writes take, as the record and the count both have them. */
  lemma {:induction false} DeliveryWrites(log: seq<seq<Entry>>, l: Links, units: seq<PDU>, net: Net)
      returns (k: nat, retry: Option<nat>)
    requires AllSendable(units) && (l.live.Some? ==> log != []) && !l.closed && (l.live.None? ==> net.dial)
    ensures k <= |units| && (retry.Some? ==> retry.value <= |units| - k)
    ensures Landed(Wires(units), l, net) == k + if retry.Some? then retry.value else 0
    ensures DeliveredLog(log, l, units, net) == WritesLog(log, l.live.None?, units, k, retry)
  {
    k := WholeUnits(Wires(units), net.first.accepted);
    retry := None;
    if !net.first.ok && net.redial {
      retry := Some(WholeUnits(Wires(units)[k..], net.second.accepted));
    }
  }

  lemma {:induction false} DeliveryLands(log: seq<seq<Entry>>, l: Links, units: seq<PDU>, net: Net)
    requires AllSendable(units) && (l.live.Some? ==> log != [])
    requires Landed(Wires(units), l, net) <= |units|
    ensures FromCallers(DeliveredLog(log, l, units, net)) == FromCallers(log) + units[..Landed(Wires(units), l, net)]
  {
    if l.closed || (l.live.None? && !net.dial) {
      assert FromCallers(log) + [] == FromCallers(log);
    } else {
      var k, retry := DeliveryWrites(log, l, units, net);
      WritesLand(log, l.live.None?, units, k, retry);
    }
  }

  lemma {:induction false} WriteOnLands(log: seq<seq<Entry>>, l: Links, i: nat, writer: Writer, p: PDU, w: Write)
    requires Sendable(p) && (l.live.Some? ==> log != []) && !writer.Caller?
    ensures FromCallers(WriteOnLog(log, l, i, writer, p, w)) == FromCallers(log)
  {
    if l.live == Some(i) {
      var units := if w.accepted == |Wire(p)| then [p] else [];
      FlatOnLast(log, Tag(writer, units));
      AppendedByCallers(Flat(log), Flat(OnLast(log, Tag(writer, units))), writer, units);
      assert FromCallers(log) + [] == FromCallers(log);
    }
  }

  /** One step adds to the record exactly what it lands. */
  lemma {:induction false} StepLands(s: State, a: Action)
    requires Wellformed(s) && Enabled(s, a)
    ensures FromCallers(Apply(s, a).log) == FromCallers(s.log) + LandedBy(s, a)
  {
    assert FromCallers(s.log) + [] == FromCallers(s.log);
    match a {
      case Deliver(units, ends, net) =>
        DeliveryIsPrefix(s.links, units, ends, net);
        DeliveryLands(s.log, s.links, units, net);
      case WriteKeepalive(i, w) =>
        KeepalivesAreSendable(TYPE_KEEPALIVE, Number(s.loops[i].issued - 1));
        WriteOnLands(s.log, s.links, i, Timer, KeepaliveOf(Number(s.loops[i].issued - 1)), w);
      case AnswerKeepalive(i, n, w) =>
        KeepalivesAreSendable(TYPE_KEEPALIVE_ACK, n);
        WriteOnLands(s.log, s.links, i, Answerer, AckOf(n), w);
      case Expire(i, dial) =>
        FlatSnoc(s.log, []);
        assert Flat(s.log) + [] == Flat(s.log);
      case _ =>
    }
  }

  lemma {:induction false} RunLands(s: State, actions: seq<Action>)
    requires Run(s, actions)
    ensures FromCallers(Exec(s, actions).log) == FromCallers(s.log) + LandedIn(s, actions)
    decreases |actions|
  {
    if actions == [] {
      assert FromCallers(s.log) + [] == FromCallers(s.log);
    } else {
      var next := Apply(s, actions[0]);
      StepLands(s, actions[0]);
      RunLands(next, actions[1..]);
      Regroup(FromCallers(s.log), LandedBy(s, actions[0]), LandedIn(next, actions[1..]));
    }
  }

  // -------------------------------------------------------------------- conservation

  predicate IsProduct(p: PDU) {
    p.typ != TYPE_KEEPALIVE && p.typ != TYPE_KEEPALIVE_ACK
  }

  function Product(units: seq<PDU>): seq<PDU> {
    if units == [] then []
    else Product(units[..|units| - 1]) + if IsProduct(units[|units| - 1]) then [units[|units| - 1]] else []
  }

  /** Only callers write product. */
  lemma {:induction false} ProductIsCallers(es: seq<Entry>)
    requires AllMarked(es)
    ensures Product(Units(es)) == Product(By(es, Caller))
  {
    if es != [] {
      var n := |es| - 1;
      var front, last := es[..n], es[n];
      ProductIsCallers(front);
      assert Units(es)[..n] == Units(front);
      assert Marked(last);
      if last.writer.Caller? {
        var all := By(front, Caller) + [last.unit];
        assert all[..|all| - 1] == By(front, Caller);
      } else {
        assert By(front, Caller) + [] == By(front, Caller);
      }
    }
  }

  lemma {:induction false} FlatMarked(log: seq<seq<Entry>>)
    requires forall i :: 0 <= i < |log| ==> AllMarked(log[i])
    ensures AllMarked(Flat(log))
  {
    if log != [] {
      FlatMarked(log[..|log| - 1]);
    }
  }

  lemma {:induction false} PeersHaveCallersProduct(s: State)
    requires Inv(s)
    ensures Product(Received(s.links.sent)) == Product(FromCallers(s.log))
  {
    forall i | 0 <= i < |s.log| ensures AllMarked(s.log[i]) && DecodeAll(s.links.sent[i]) == Units(s.log[i]) {
      assert LoopOk(s, i) && LinkOk(s.links, s.log, i);
    }
    ReceivedIsRecorded(s.links.sent, s.log);
    FlatMarked(s.log);
    ProductIsCallers(Flat(s.log));
  }

  lemma {:induction false} ProductOfConcat(a: seq<PDU>, b: seq<PDU>)
    ensures Product(a + b) == Product(a) + Product(b)
  {
    if b == [] {
      assert a + b == a;
    } else {
      var n := |b| - 1;
      ProductOfConcat(a, b[..n]);
      assert (a + b)[..|a| + n] == a + b[..n];
    }
  }

  /**
   Over every run, from a new client or from any state one reaches: decoding every connection
   in the order they were dialled and keeping the product gives what was there before and then
   the product of the deliveries, each batch's landed prefix behind the one before. Nothing is
   repeated, reordered or invented, across redials and connections.
   */
  lemma {:induction false} ProductArrivesInOrder(start: State, actions: seq<Action>)
    requires Inv(start) && Run(start, actions)
    ensures Product(Received(Exec(start, actions).links.sent))
      == Product(Received(start.links.sent)) + Product(LandedIn(start, actions))
  {
    RunKeeps(start, actions);
    RunLands(start, actions);
    PeersHaveCallersProduct(start);
    PeersHaveCallersProduct(Exec(start, actions));
    ProductOfConcat(FromCallers(start.log), LandedIn(start, actions));
  }

  lemma {:induction false} NewClient(keepalives: bool)
    ensures Inv(Initial(keepalives)) && Received(Initial(keepalives).links.sent) == []
    ensures FromCallers(Initial(keepalives).log) == []
  {
  }

  // ------------------------------------------------ when all Keepalives count up

  /** On every connection the Keepalives, whoever wrote them, are numbered 0, 1, 2, ... */
  ghost predicate Numbered(s: State) {
    forall i :: 0 <= i < |s.links.sent| ==>
      Numbers(DecodeAll(s.links.sent[i])) == CountUp(|Numbers(DecodeAll(s.links.sent[i]))|)
  }

  /** Callers send only such units. */
  ghost predicate DeliversOnly(actions: seq<Action>, allowed: PDU -> bool) {
    forall i :: 0 <= i < |actions| && actions[i].Deliver? ==>
      forall m :: 0 <= m < |actions[i].units| ==> allowed(actions[i].units[m])
  }

  lemma {:induction false} LandedIsAllowed(s: State, actions: seq<Action>, allowed: PDU -> bool)
    requires Run(s, actions) && DeliversOnly(actions, allowed)
    ensures forall u :: u in LandedIn(s, actions) ==> allowed(u) && Sendable(u)
    decreases |actions|
  {
    if actions != [] {
      LandedIsAllowed(Apply(s, actions[0]), actions[1..], allowed);
      forall u | u in LandedBy(s, actions[0]) ensures allowed(u) && Sendable(u) {
        var m :| 0 <= m < |actions[0].units| && actions[0].units[m] == u;
      }
    }
  }

  lemma {:induction false} WrittenIsBy(es: seq<Entry>, m: nat)
    requires m < |es|
    ensures es[m].unit in By(es, es[m].writer)
  {
    var n := |es| - 1;
    if m < n {
      WrittenIsBy(es[..n], m);
      assert es[..n][m] == es[m];
    }
  }

  lemma {:induction false} FlatHas(log: seq<seq<Entry>>, i: nat, m: nat)
    requires i < |log| && m < |log[i]|
    ensures log[i][m] in Flat(log)
  {
    var n := |log| - 1;
    if i < n {
      FlatHas(log[..n], i, m);
    } else {
      assert Flat(log) == Flat(log[..n]) + log[n];
      assert Flat(log)[|Flat(log[..n])| + m] == log[n][m];
    }
  }

  /** If callers wrote no Keepalive on it, a connection's Keepalives are its timer's. */
  lemma {:induction false} NumbersAreTimers(es: seq<Entry>)
    requires AllMarked(es)
    requires forall m :: 0 <= m < |es| && es[m].writer.Caller? ==> es[m].unit.typ != TYPE_KEEPALIVE
    ensures Numbers(Units(es)) == TimerNumbers(es)
  {
    if es != [] {
      var n := |es| - 1;
      NumbersAreTimers(es[..n]);
      assert Marked(es[n]);
      assert Units(es) == Units(es[..n]) + [es[n].unit];
      if es[n].writer.Timer? {
        NumbersOfConcat(Units(es[..n]), [es[n].unit]);
        NumbersOfConcat(By(es[..n], Timer), [es[n].unit]);
      } else {
        NotNumbered(Units(es[..n]), es[n].unit);
        assert By(es[..n], Timer) + [] == By(es[..n], Timer);
      }
    }
  }

  lemma {:induction false} NotNumbered(units: seq<PDU>, u: PDU)
    requires u.typ != TYPE_KEEPALIVE
    ensures Numbers(units + [u]) == Numbers(units)
  {
    NumbersOfConcat(units, [u]);
    assert [u][1..] == [];
    assert Numbers(units) + [] == Numbers(units);
  }

  lemma {:induction false} NumberedConnection(s: State, i: nat)
    requires Inv(s) && i < |s.links.sent|
    requires forall u :: u in FromCallers(s.log) ==> u.typ != TYPE_KEEPALIVE
    ensures Numbers(DecodeAll(s.links.sent[i])) == CountUp(|Numbers(DecodeAll(s.links.sent[i]))|)
  {
    assert LoopOk(s, i) && LinkOk(s.links, s.log, i);
    forall m | 0 <= m < |s.log[i]| && s.log[i][m].writer.Caller? ensures s.log[i][m].unit.typ != TYPE_KEEPALIVE {
      FlatHas(s.log, i, m);
      var k :| 0 <= k < |Flat(s.log)| && Flat(s.log)[k] == s.log[i][m];
      WrittenIsBy(Flat(s.log), k);
    }
    NumbersAreTimers(s.log[i]);
  }

  /** If no caller sends a Keepalive, all the Keepalives on every connection count up. */
  lemma {:induction false} NumberedWithoutCallersKeepalives(keepalives: bool, actions: seq<Action>,
      allowed: PDU -> bool)
    requires Run(Initial(keepalives), actions) && DeliversOnly(actions, allowed)
    requires forall u :: Sendable(u) && allowed(u) ==> u.typ != TYPE_KEEPALIVE
    ensures Numbered(Exec(Initial(keepalives), actions))
  {
    var start := Initial(keepalives);
    var s := Exec(start, actions);
    RunKeeps(start, actions);
    NewClient(keepalives);
    RunLands(start, actions);
    LandedIsAllowed(start, actions, allowed);
    forall i | 0 <= i < |s.links.sent|
      ensures Numbers(DecodeAll(s.links.sent[i])) == CountUp(|Numbers(DecodeAll(s.links.sent[i]))|)
    {
      NumberedConnection(s, i);
    }
  }

  /** A batch sent whole on a new client. */
  function WholeDelivery(units: seq<PDU>): Action
    requires AllSendable(units)
  {
    Deliver(units, Ends(Wires(units), 0), Net(true, Write(|Stream(units)|, true), true, Write(0, true)))
  }

  lemma {:induction false} WholeDeliveryRuns(units: seq<PDU>)
    requires AllSendable(units) && units != []
    ensures Run(Initial(false), [WholeDelivery(units)])
    ensures Exec(Initial(false), [WholeDelivery(units)]).links.sent == [Stream(units)]
    ensures DecodeAll(Stream(units)) == units
  {
    var a, s := WholeDelivery(units), Initial(false);
    StreamOfSomething(units);
    assert Enabled(s, a);
    StepKeeps(s, a);
    var t := Apply(s, a);
    assert [a][1..] == [];
    assert [] + Stream(units)[..|Stream(units)|] == Stream(units);
    assert t.links.sent == [Stream(units)];
    DecodeAllWhole(units);
  }

  /** Sent through Send, a Keepalive numbered 7 is the first on its connection. */
  lemma {:induction false} CallersKeepaliveSeven()
    ensures AllSendable([KeepaliveOf(7)]) && Run(Initial(false), [WholeDelivery([KeepaliveOf(7)])])
    ensures var s := Exec(Initial(false), [WholeDelivery([KeepaliveOf(7)])]);
      && |s.links.sent| == 1 && Numbers(DecodeAll(s.links.sent[0])) == [Some(7)] && CountUp(1) == [Some(0)]
      && !Numbered(s)
  {
    KeepalivesAreSendable(TYPE_KEEPALIVE, 7);
    KeepaliveNumbers(7);
    WholeDeliveryRuns([KeepaliveOf(7)]);
    FirstNumbers();
    Misnumbered(Exec(Initial(false), [WholeDelivery([KeepaliveOf(7)])]), [KeepaliveOf(7)], [Some(7)]);
  }

  lemma {:induction false} NumbersOfTwo(u: PDU)
    requires u.typ == TYPE_KEEPALIVE
    ensures Numbers([u, u]) == [SequenceIn(u.attributes), SequenceIn(u.attributes)]
  {
    assert [u][1..] == [];
    NumbersOfConcat([u], [u]);
    assert [u] + [u] == [u, u];
  }

  lemma {:induction false} FirstNumbers()
    ensures CountUp(1) == [Some(0)] && CountUp(2) == [Some(0), Some(1)]
  {
    assert CountUp(1) == CountUp(0) + [Some(Number(0))];
    assert CountUp(2) == CountUp(1) + [Some(Number(1))];
  }

  lemma {:induction false} Misnumbered(s: State, units: seq<PDU>, numbers: seq<Option<u32>>)
    requires |s.links.sent| == 1 && DecodeAll(s.links.sent[0]) == units
    requires Numbers(units) == numbers && numbers != CountUp(|numbers|)
    ensures !Numbered(s)
  {
    assert Numbers(DecodeAll(s.links.sent[0])) == numbers;
  }

  /** Whatever Keepalive a caller may send, sending it twice breaks the numbering. */
  lemma {:induction false} CallersKeepaliveBreaksNumbering(u: PDU)
    requires Sendable(u) && u.typ == TYPE_KEEPALIVE
    ensures Run(Initial(false), [WholeDelivery([u, u])])
    ensures !Numbered(Exec(Initial(false), [WholeDelivery([u, u])]))
  {
    WholeDeliveryRuns([u, u]);
    var x := SequenceIn(u.attributes);
    NumbersOfTwo(u);
    FirstNumbers();
    var twice: seq<Option<u32>> := [x, x];
    assert twice[0] == twice[1] && CountUp(2)[0] != CountUp(2)[1];
    Misnumbered(Exec(Initial(false), [WholeDelivery([u, u])]), [u, u], twice);
  }

  lemma {:induction false} AllowedKeepaliveBreaksNumbering(allowed: PDU -> bool, u: PDU, actions: seq<Action>)
    requires Sendable(u) && u.typ == TYPE_KEEPALIVE && allowed(u) && actions == [WholeDelivery([u, u])]
    ensures Run(Initial(false), actions) && DeliversOnly(actions, allowed)
    ensures !Numbered(Exec(Initial(false), actions))
  {
    CallersKeepaliveBreaksNumbering(u);
  }

  /**
   All the Keepalives on every connection count up in every run if and only if what callers
   may send includes no Keepalive.
   */
  lemma {:induction false} NumberingHoldsExactlyWhen(allowed: PDU -> bool)
    ensures (forall keepalives, actions :: Run(Initial(keepalives), actions) && DeliversOnly(actions, allowed) ==>
               Numbered(Exec(Initial(keepalives), actions)))
      <==> (forall u :: Sendable(u) && allowed(u) ==> u.typ != TYPE_KEEPALIVE)
  {
    if forall u :: Sendable(u) && allowed(u) ==> u.typ != TYPE_KEEPALIVE {
      forall keepalives, actions | Run(Initial(keepalives), actions) && DeliversOnly(actions, allowed)
        ensures Numbered(Exec(Initial(keepalives), actions))
      {
        NumberedWithoutCallersKeepalives(keepalives, actions, allowed);
      }
    } else {
      var u :| Sendable(u) && allowed(u) && u.typ == TYPE_KEEPALIVE;
      AllowedKeepaliveBreaksNumbering(allowed, u, [WholeDelivery([u, u])]);
    }
  }
}
