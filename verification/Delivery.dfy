/**
 Delivery over one connection at a time, with one redial: deliver, resumeAt, SendBatch and
 Close of x2x3/client.go. The network is what each dial and each write answers.
 */
module Delivery {
  import opened Wrappers
  import opened Octets
  import opened Pdu
  import opened PduProperties
  import opened Framing

  /** What one write of b took, and whether it reported success. */
  datatype Write = Write(accepted: nat, ok: bool)

  /** A writer never takes more than it was given, and succeeds only on taking all of it. */
  predicate Honest(w: Write, b: seq<octet>) {
    w.accepted <= |b| && (w.ok ==> w.accepted == |b|)
  }

  /** The answers one delivery can meet with, in order. */
  datatype Net = Net(dial: bool, first: Write, redial: bool, second: Write)

  datatype Outcome = Delivered | AfterClose | DialFailed | SendFailed | UnitDropped

  /** The octets every connection dialled so far has taken, and which one is held. */
  datatype Links = Links(sent: seq<seq<octet>>, live: Option<nat>, closed: bool)
  {
    predicate Valid() {
      live.Some? ==> live.value < |sent|
    }
  }

  // ------------------------------------------------------------------- resumption

  predicate Within(ends: seq<nat>, start: nat, size: nat) {
    start <= size && forall i :: 0 <= i < |ends| ==> ends[i] <= size
  }

  function ResumeScan(b: seq<octet>, ends: seq<nat>, start: nat, written: nat): (seq<octet>, bool)
    requires Within(ends, start, |b|) && written <= |b|
  {
    if ends == [] then ([], false)
    else if ends[0] == written then (b[written..], false)
    else if ends[0] > written then (b[start..], true)
    else ResumeScan(b, ends[1..], ends[0], written)
  }

  function Resume(b: seq<octet>, ends: seq<nat>, written: nat): (seq<octet>, bool)
    requires Within(ends, 0, |b|)
  {
    if written == 0 then (b, false)
    else if written >= |b| then ([], false)
    else if ends == [] then (b, true)
    else ResumeScan(b, ends, 0, written)
  }

  method ResumeAt(b: seq<octet>, boundaries: seq<nat>, written: nat) returns (rest: seq<octet>, resuming: bool)
    requires Within(boundaries, 0, |b|)
    ensures (rest, resuming) == Resume(b, boundaries, written)
  {
    if written == 0 {
      return b, false;
    }
    if written >= |b| {
      return [], false;
    }
    if |boundaries| == 0 {
      return b, true;
    }
    var start: nat := 0;
    for i := 0 to |boundaries|
      invariant start <= |b|
      invariant ResumeScan(b, boundaries, 0, written) == ResumeScan(b, boundaries[i..], start, written)
    {
      var end := boundaries[i];
      if end == written {
        return b[written..], false;
      }
      if end > written {
        return b[start..], true;
      }
      assert boundaries[i..][1..] == boundaries[i + 1..];
      start := end;
    }
    return [], false;
  }

  /** Where each unit ends in their join, offset by what precedes them. */
  function Ends(ws: seq<seq<octet>>, offset: nat): (ends: seq<nat>)
    ensures |ends| == |ws|
    ensures forall i :: 0 <= i < |ends| ==> ends[i] <= offset + |Join(ws)|
  {
    if ws == [] then [] else [offset + |ws[0]|] + Ends(ws[1..], offset + |ws[0]|)
  }

  predicate NonEmpty(ws: seq<seq<octet>>) {
    forall i :: 0 <= i < |ws| ==> ws[i] != []
  }

  lemma {:induction false} ScanFindsUnit(b: seq<octet>, ws: seq<seq<octet>>, start: nat, written: nat)
    requires start < written < |b| == start + |Join(ws)| && b[start..] == Join(ws) && NonEmpty(ws)
    ensures ResumeScan(b, Ends(ws, start), start, written).0 == Join(ws[WholeUnits(ws, written - start)..])
    decreases |ws|
  {
    var end := start + |ws[0]|;
    if end == written {
      assert ws[1..] != [];
      assert b[written..] == b[start..][|ws[0]|..];
    } else if end < written {
      assert b[end..] == b[start..][|ws[0]|..];
      ScanFindsUnit(b, ws[1..], end, written);
      var k := WholeUnits(ws[1..], written - end);
      assert ws[1..][k..] == ws[k + 1..];
    } else {
      assert ws[0..] == ws;
    }
  }

  /** The offsets passed with a batch: its units' ends, or none for a single unit. */
  predicate Boundaries(ws: seq<seq<octet>>, ends: seq<nat>) {
    ends == Ends(ws, 0) || (ends == [] && |ws| == 1)
  }

  /** A retry starts at the first unit the write did not take whole. */
  lemma {:induction false} ResumeIsAtFirstUnsentUnit(ws: seq<seq<octet>>, ends: seq<nat>, written: nat)
    requires NonEmpty(ws) && Boundaries(ws, ends) && written <= |Join(ws)|
    ensures Within(ends, 0, |Join(ws)|)
    ensures Resume(Join(ws), ends, written).0 == Join(ws[WholeUnits(ws, written)..])
  {
    var b := Join(ws);
    if written == 0 {
      assert ws[0..] == ws;
    } else if written == |b| {
      WholeUnitsOfAll(ws);
    } else if ends == [] {
      assert Join(ws[1..]) == [];
      assert ws[0..] == ws;
    } else {
      assert b[0..] == b;
      ScanFindsUnit(b, ws, 0, written);
    }
  }

  lemma {:induction false} WholeUnitsOfAll(ws: seq<seq<octet>>)
    ensures WholeUnits(ws, |Join(ws)|) == |ws|
  {
    if ws != [] {
      WholeUnitsOfAll(ws[1..]);
    }
  }

  // --------------------------------------------------------------- specification

  function Dial(l: Links, ok: bool): Links {
    if ok then l.(sent := l.sent + [[]], live := Some(|l.sent|)) else l
  }

  function WriteLive(l: Links, b: seq<octet>, n: nat): Links
    requires l.Valid() && l.live.Some? && n <= |b|
  {
    l.(sent := l.sent[l.live.value := l.sent[l.live.value] + b[..n]])
  }

  function Drop(l: Links): Links {
    l.(live := None)
  }

  /** What the network may answer to the writes this delivery makes. */
  predicate HonestNet(b: seq<octet>, ends: seq<nat>, net: Net)
    requires Within(ends, 0, |b|)
  {
    Honest(net.first, b) && Honest(net.second, Resume(b, ends, net.first.accepted).0)
  }

  function Connected(l: Links, dial: bool): Links {
    if l.live.None? then Dial(l, dial) else l
  }

  function Retry(l: Links, rest: seq<octet>, partlyLanded: bool, net: Net): (Links, Outcome)
    requires Honest(net.second, rest)
  {
    if !net.redial then (Drop(l), DialFailed)
    else
      var redialled := Dial(Drop(l), true);
      if rest == [] then (redialled, Delivered)
      else
        var after := WriteLive(redialled, rest, net.second.accepted);
        if net.second.ok then (after, Delivered)
        else (Drop(after), if partlyLanded then UnitDropped else SendFailed)
  }

  function Deliver(l: Links, b: seq<octet>, ends: seq<nat>, net: Net): (Links, Outcome)
    requires l.Valid() && Within(ends, 0, |b|) && HonestNet(b, ends, net)
  {
    if l.closed then (l, AfterClose)
    else if Connected(l, net.dial).live.None? then (l, DialFailed)
    else
      var written := WriteLive(Connected(l, net.dial), b, net.first.accepted);
      if net.first.ok then (written, Delivered)
      else
        var (rest, resuming) := Resume(b, ends, net.first.accepted);
        Retry(written, rest, resuming && |rest| < |b|, net)
  }

  // ----------------------------------------------------------- what a peer receives

  /** The octets connection i took between two states of the links. */
  function Gain(before: seq<seq<octet>>, after: seq<seq<octet>>, i: nat): seq<octet>
    requires i < |after|
  {
    if i < |before| && |before[i]| <= |after[i]| then after[i][|before[i]|..] else after[i]
  }

  function Flatten(parts: seq<seq<PDU>>): seq<PDU> {
    if parts == [] then [] else parts[0] + Flatten(parts[1..])
  }

  /** What a peer decodes from the gain of each connection, in the order they were dialled. */
  function DecodedGains(before: seq<seq<octet>>, after: seq<seq<octet>>): (parts: seq<seq<PDU>>)
    ensures |parts| == |after|
    ensures forall i :: 0 <= i < |after| ==> parts[i] == DecodeAll(Gain(before, after, i))
  {
    seq(|after|, i requires 0 <= i < |after| => DecodeAll(Gain(before, after, i)))
  }

  function Gained(before: Links, after: Links): seq<PDU> {
    Flatten(DecodedGains(before.sent, after.sent))
  }

  lemma {:induction false} FlattenNothing(parts: seq<seq<PDU>>)
    requires forall m :: 0 <= m < |parts| ==> parts[m] == []
    ensures Flatten(parts) == []
  {
    if parts != [] {
      FlattenNothing(parts[1..]);
    }
  }

  lemma {:induction false} FlattenOne(parts: seq<seq<PDU>>, i: nat)
    requires i < |parts|
    requires forall m :: 0 <= m < |parts| && m != i ==> parts[m] == []
    ensures Flatten(parts) == parts[i]
  {
    if i == 0 {
      FlattenNothing(parts[1..]);
    } else {
      FlattenOne(parts[1..], i - 1);
    }
  }

  /** Only connection i, and one dialled after every other, took anything. */
  lemma {:induction false} FlattenTwo(parts: seq<seq<PDU>>, i: nat)
    requires i < |parts| - 1
    requires forall m :: 0 <= m < |parts| - 1 && m != i ==> parts[m] == []
    ensures Flatten(parts) == parts[i] + parts[|parts| - 1]
  {
    if i == 0 {
      FlattenOne(parts[1..], |parts| - 2);
    } else {
      FlattenTwo(parts[1..], i - 1);
    }
  }

  lemma {:induction false} NothingGained(before: seq<seq<octet>>, after: seq<seq<octet>>, m: nat)
    requires m < |after| && Gain(before, after, m) == []
    ensures DecodedGains(before, after)[m] == []
  {
  }

  // ----------------------------------------------------------------- main results

  /** How many units of the batch one delivery lands, counted from the network's answers. */
  function Landed(ws: seq<seq<octet>>, l: Links, net: Net): nat {
    if l.closed || (l.live.None? && !net.dial) then 0
    else
      var k := WholeUnits(ws, net.first.accepted);
      if net.first.ok || !net.redial then k
      else k + WholeUnits(ws[k..], net.second.accepted)
  }

  lemma {:induction false} WiresAreNotEmpty(units: seq<PDU>)
    requires AllSendable(units)
    ensures NonEmpty(Wires(units))
  {
    forall i | 0 <= i < |units| ensures Wires(units)[i] != [] {
      WireLength(units[i]);
    }
  }

  /** The first write alone: its connection gains the units it took whole. */
  lemma {:induction false} FirstWriteGains(l: Links, b: seq<octet>, n: nat, dial: bool)
    requires l.Valid() && n <= |b| && Connected(l, dial).live.Some?
    ensures var after := WriteLive(Connected(l, dial), b, n);
      var i := after.live.value;
      && after.Valid() && i < |after.sent| && (l.live.Some? ==> |after.sent| == |l.sent|)
      && (l.live.None? ==> i == |after.sent| - 1)
      && Gain(l.sent, after.sent, i) == b[..n]
      && forall m :: 0 <= m < |after.sent| && m != i ==> Gain(l.sent, after.sent, m) == []
  {
  }

  /** Redialling and writing more leaves every earlier gain as it was. */
  lemma {:induction false} RedialKeepsGains(before: seq<seq<octet>>, l: Links, rest: seq<octet>, n: nat, m: nat)
    requires n <= |rest| && m < |l.sent| && |before| <= |l.sent|
    ensures var after := WriteLive(Dial(Drop(l), true), rest, n);
      && |after.sent| == |l.sent| + 1
      && Gain(before, after.sent, m) == Gain(before, l.sent, m)
      && Gain(before, after.sent, |l.sent|) == rest[..n]
  {
    assert [] + rest[..n] == rest[..n];
  }

  lemma {:induction false} NothingSent(l: Links)
    ensures Gained(l, l) == []
  {
    forall m | 0 <= m < |l.sent| ensures DecodedGains(l.sent, l.sent)[m] == [] {
      NothingGained(l.sent, l.sent, m);
    }
    FlattenNothing(DecodedGains(l.sent, l.sent));
  }

  /**
   Whatever the first and the retried write take, decoding what each connection received
   and concatenating gives the first Landed units of the batch: a prefix, none repeated.
   */
  lemma {:induction false} DeliveryIsPrefix(l: Links, units: seq<PDU>, ends: seq<nat>, net: Net)
    requires l.Valid() && AllSendable(units) && units != []
    requires Boundaries(Wires(units), ends)
    requires Within(ends, 0, |Stream(units)|) && HonestNet(Stream(units), ends, net)
    ensures Landed(Wires(units), l, net) <= |units|
    ensures Gained(l, Deliver(l, Stream(units), ends, net).0) == units[..Landed(Wires(units), l, net)]
  {
    var b := Stream(units);
    if l.closed || Connected(l, net.dial).live.None? {
      NothingSent(l);
    } else {
      var n := net.first.accepted;
      var written := WriteLive(Connected(l, net.dial), b, n);
      FirstWriteGains(l, b, n, net.dial);
      if net.first.ok || !net.redial {
        FirstWriteIsPrefix(l, units, n, written);
      } else {
        var (rest, resuming) := Resume(b, ends, n);
        RetryIsPrefix(l, units, ends, net, written, resuming && |rest| < |b|);
      }
    }
  }

  ghost predicate TookOnly(before: seq<seq<octet>>, after: seq<seq<octet>>, i: nat, b: seq<octet>) {
    && i < |after|
    && Gain(before, after, i) == b
    && forall m :: 0 <= m < |after| && m != i ==> Gain(before, after, m) == []
  }

  lemma {:induction false} FirstWriteIsPrefix(l: Links, units: seq<PDU>, n: nat, written: Links)
    requires AllSendable(units) && n <= |Stream(units)|
    requires written.live.Some? && TookOnly(l.sent, written.sent, written.live.value, Stream(units)[..n])
    ensures Gained(l, written) == units[..WholeUnits(Wires(units), n)]
  {
    DecodeAllOfCut(units, n);
    forall m | 0 <= m < |written.sent| && m != written.live.value
      ensures DecodedGains(l.sent, written.sent)[m] == []
    {
      NothingGained(l.sent, written.sent, m);
    }
    FlattenOne(DecodedGains(l.sent, written.sent), written.live.value);
  }

  lemma {:induction false} RetrySent(written: Links, rest: seq<octet>, landed: bool, net: Net)
    requires net.redial && Honest(net.second, rest)
    ensures Retry(written, rest, landed, net).0.sent
         == WriteLive(Dial(Drop(written), true), rest, net.second.accepted).sent
  {
    if rest == [] {
      assert [] + rest[..net.second.accepted] == [];
      assert WriteLive(Dial(Drop(written), true), rest, net.second.accepted).sent == Dial(Drop(written), true).sent;
    }
  }

  lemma {:induction false} TwoCuts(units: seq<PDU>, n: nat, k: nat, rest: seq<PDU>, m: nat)
    requires AllSendable(units) && n <= |Stream(units)| && k == WholeUnits(Wires(units), n)
    requires rest == units[k..] && AllSendable(rest) && m <= |Stream(rest)|
    ensures DecodeAll(Stream(units)[..n]) + DecodeAll(Stream(rest)[..m])
         == units[..k + WholeUnits(Wires(rest), m)]
  {
    var j := WholeUnits(Wires(rest), m);
    DecodeAllOfCut(units, n);
    DecodeAllOfCut(rest, m);
    assert units[..k] + rest[..j] == units[..k + j] by {
      PrefixOfRest(units, k, j);
    }
  }

  lemma {:induction false} PrefixOfRest<T>(s: seq<T>, k: nat, j: nat)
    requires k <= |s| && j <= |s| - k
    ensures s[..k] + s[k..][..j] == s[..k + j]
  {
  }

  lemma {:induction false} RetryIsPrefix(l: Links, units: seq<PDU>, ends: seq<nat>, net: Net, written: Links,
      landed: bool)
    requires AllSendable(units) && units != []
    requires Boundaries(Wires(units), ends)
    requires Within(ends, 0, |Stream(units)|) && HonestNet(Stream(units), ends, net)
    requires net.redial && |l.sent| <= |written.sent|
    requires written.live.Some?
    requires TookOnly(l.sent, written.sent, written.live.value, Stream(units)[..net.first.accepted])
    ensures var k := WholeUnits(Wires(units), net.first.accepted);
      var j := WholeUnits(Wires(units)[k..], net.second.accepted);
      var rest := Resume(Stream(units), ends, net.first.accepted).0;
      && k + j <= |units|
      && Gained(l, Retry(written, rest, landed, net).0) == units[..k + j]
  {
    var n, m := net.first.accepted, net.second.accepted;
    var rest := Resume(Stream(units), ends, n).0;
    RestIsUnsentUnits(units, ends, n);
    RetrySent(written, rest, landed, net);
    RedialGains(l.sent, written, written.live.value, Stream(units)[..n], rest, m);
    var k := WholeUnits(Wires(units), n);
    TwoCuts(units, n, k, units[k..], m);
  }

  lemma {:induction false} RestIsUnsentUnits(units: seq<PDU>, ends: seq<nat>, n: nat)
    requires AllSendable(units) && units != [] && Boundaries(Wires(units), ends)
    requires n <= |Stream(units)| && Within(ends, 0, |Stream(units)|)
    ensures var k := WholeUnits(Wires(units), n);
      && Resume(Stream(units), ends, n).0 == Stream(units[k..])
      && Wires(units[k..]) == Wires(units)[k..]
  {
    WiresAreNotEmpty(units);
    ResumeIsAtFirstUnsentUnit(Wires(units), ends, n);
    var k := WholeUnits(Wires(units), n);
    assert Wires(units[k..]) == Wires(units)[k..];
  }

  /** After a redial and a second write, the two connections' gains are what a peer has. */
  lemma {:induction false} RedialGains(before: seq<seq<octet>>, written: Links, i: nat, first: seq<octet>,
      rest: seq<octet>, m: nat)
    requires |before| <= |written.sent| && TookOnly(before, written.sent, i, first) && m <= |rest|
    ensures Flatten(DecodedGains(before, WriteLive(Dial(Drop(written), true), rest, m).sent))
         == DecodeAll(first) + DecodeAll(rest[..m])
  {
    var after := WriteLive(Dial(Drop(written), true), rest, m);
    forall x | 0 <= x < |written.sent|
      ensures Gain(before, after.sent, x) == Gain(before, written.sent, x)
    {
      RedialKeepsGains(before, written, rest, m, x);
    }
    RedialKeepsGains(before, written, rest, m, i);
    var parts := DecodedGains(before, after.sent);
    forall x | 0 <= x < |parts| - 1 && x != i ensures parts[x] == [] {
      NothingGained(before, after.sent, x);
    }
    FlattenTwo(parts, i);
  }

  /** A nil result means the whole batch arrived, each unit once. */
  lemma {:induction false} DeliveredMeansAll(l: Links, units: seq<PDU>, ends: seq<nat>, net: Net)
    requires l.Valid() && AllSendable(units) && units != []
    requires Boundaries(Wires(units), ends)
    requires Within(ends, 0, |Stream(units)|) && HonestNet(Stream(units), ends, net)
    ensures Deliver(l, Stream(units), ends, net).1.Delivered?
            ==> Gained(l, Deliver(l, Stream(units), ends, net).0) == units
  {
    DeliveryIsPrefix(l, units, ends, net);
    var ws, n := Wires(units), net.first.accepted;
    if Deliver(l, Stream(units), ends, net).1.Delivered? {
      var k := WholeUnits(ws, n);
      if net.first.ok {
        WholeUnitsOfAll(ws);
      } else {
        WiresAreNotEmpty(units);
        ResumeIsAtFirstUnsentUnit(ws, ends, n);
        assert net.second.accepted == |Join(ws[k..])|;
        WholeUnitsOfAll(ws[k..]);
      }
      assert units[..|units|] == units;
    }
  }

  /** The converse fails: an error after the first write took everything, and no redial. */
  lemma {:induction false} ErrorAfterFullArrival(l: Links, units: seq<PDU>, ends: seq<nat>)
    requires l.Valid() && !l.closed && AllSendable(units) && units != []
    requires Boundaries(Wires(units), ends)
    requires Within(ends, 0, |Stream(units)|)
    ensures var net := Net(true, Write(|Stream(units)|, false), false, Write(0, false));
      && HonestNet(Stream(units), ends, net)
      && Deliver(l, Stream(units), ends, net).1 == DialFailed
      && Gained(l, Deliver(l, Stream(units), ends, net).0) == units
  {
    var net := Net(true, Write(|Stream(units)|, false), false, Write(0, false));
    DeliveryIsPrefix(l, units, ends, net);
    WholeUnitsOfAll(Wires(units));
    assert units[..|units|] == units;
  }

  /** The last write the batch needed took everything it was given and still reported an error. */
  predicate LateError(b: seq<octet>, ends: seq<nat>, net: Net)
    requires Within(ends, 0, |b|)
  {
    var rest := Resume(b, ends, net.first.accepted).0;
    !net.first.ok &&
    if !net.redial then net.first.accepted == |b|
    else rest != [] && !net.second.ok && net.second.accepted == |rest|
  }

  /** If every unit landed, the first write took all there was, or the second the rest. */
  lemma {:induction false} WholeArrivalEndsTheWrites(units: seq<PDU>, ends: seq<nat>, net: Net)
    requires AllSendable(units) && units != [] && Boundaries(Wires(units), ends)
    requires Within(ends, 0, |Stream(units)|) && HonestNet(Stream(units), ends, net) && !net.first.ok
    requires var k := WholeUnits(Wires(units), net.first.accepted);
      k + (if net.redial then WholeUnits(Wires(units)[k..], net.second.accepted) else 0) == |units|
    ensures if net.redial then net.second.accepted == |Resume(Stream(units), ends, net.first.accepted).0|
      else net.first.accepted == |Stream(units)|
  {
    var k := WholeUnits(Wires(units), net.first.accepted);
    CutStream(units, net.first.accepted);
    RestIsUnsentUnits(units, ends, net.first.accepted);
    if net.redial {
      CutStream(units[k..], net.second.accepted);
    }
  }

  /** A nil result is exactly a whole arrival that no late error hid. */
  lemma {:induction false} DeliveredExactlyWhen(l: Links, units: seq<PDU>, ends: seq<nat>, net: Net)
    requires l.Valid() && AllSendable(units) && units != []
    requires Boundaries(Wires(units), ends)
    requires Within(ends, 0, |Stream(units)|) && HonestNet(Stream(units), ends, net)
    ensures Deliver(l, Stream(units), ends, net).1.Delivered? <==>
      Gained(l, Deliver(l, Stream(units), ends, net).0) == units && !LateError(Stream(units), ends, net)
  {
    DeliveredMeansAll(l, units, ends, net);
    DeliveryIsPrefix(l, units, ends, net);
    if Landed(Wires(units), l, net) == |units| && !net.first.ok {
      WholeArrivalEndsTheWrites(units, ends, net);
    }
  }

  // ------------------------------------------------------------ which answer, and when

  lemma {:induction false} ScanCutsInside(b: seq<octet>, ws: seq<seq<octet>>, start: nat, written: nat)
    requires start < written < |b| == start + |Join(ws)| && b[start..] == Join(ws) && NonEmpty(ws)
    ensures ResumeScan(b, Ends(ws, start), start, written).1 <==> Remnant(ws, written - start) != []
    decreases |ws|
  {
    var end := start + |ws[0]|;
    if end == written {
      NothingRemains(ws[1..]);
    } else if end < written {
      assert b[end..] == b[start..][|ws[0]|..];
      ScanCutsInside(b, ws[1..], end, written);
    }
  }

  lemma {:induction false} NothingRemains(ws: seq<seq<octet>>)
    requires NonEmpty(ws)
    ensures Remnant(ws, 0) == [] && WholeUnits(ws, 0) == 0
  {
  }

  /** A retry resends a unit exactly if the write stopped inside it, and starts later exactly if a unit was whole. */
  lemma {:induction false} ResumingMeansCutInside(ws: seq<seq<octet>>, ends: seq<nat>, written: nat)
    requires NonEmpty(ws) && Boundaries(ws, ends) && written <= |Join(ws)| && Within(ends, 0, |Join(ws)|)
    ensures var (rest, resuming) := Resume(Join(ws), ends, written);
      && (resuming <==> Remnant(ws, written) != [])
      && (|rest| < |Join(ws)| <==> WholeUnits(ws, written) > 0)
      && (rest == [] <==> WholeUnits(ws, written) == |ws|)
  {
    var b, k := Join(ws), WholeUnits(ws, written);
    ResumeIsAtFirstUnsentUnit(ws, ends, written);
    RestIsShorter(ws, k);
    RemnantIsPartOfUnit(ws, written);
    if written == 0 {
      NothingRemains(ws);
    } else if written == |b| {
      WholeUnitsOfAll(ws);
    } else if ends == [] {
      assert Join(ws[1..]) == [];
    } else {
      assert b[0..] == b;
      ScanCutsInside(b, ws, 0, written);
    }
  }

  lemma {:induction false} RestIsShorter(ws: seq<seq<octet>>, k: nat)
    requires NonEmpty(ws) && k <= |ws|
    ensures |Join(ws[k..])| < |Join(ws)| <==> k > 0
    ensures Join(ws[k..]) == [] <==> k == |ws|
  {
    if k == 0 {
      assert ws[0..] == ws;
    } else {
      RestIsShorter(ws[1..], k - 1);
      assert ws[1..][k - 1..] == ws[k..];
    }
  }

  /** A connection is held or could be dialled, and the client is not closed. */
  predicate Reaches(l: Links, net: Net) {
    !l.closed && (l.live.Some? || net.dial)
  }

  /**
   Each answer a delivery gives, from the network's answers and the units alone: n octets of the
   first write were taken, k units of them whole.
   */
  lemma {:induction false} OutcomeExactlyWhen(l: Links, units: seq<PDU>, ends: seq<nat>, net: Net)
    requires l.Valid() && AllSendable(units) && units != []
    requires Boundaries(Wires(units), ends)
    requires Within(ends, 0, |Stream(units)|) && HonestNet(Stream(units), ends, net)
    ensures var ws, n, outcome := Wires(units), net.first.accepted, Deliver(l, Stream(units), ends, net).1;
      var k := WholeUnits(ws, n);
      var resent := Reaches(l, net) && !net.first.ok && net.redial && k < |units|;
      && (outcome == AfterClose <==> l.closed)
      && (outcome == DialFailed <==>
            !l.closed && ((l.live.None? && !net.dial) || (!net.first.ok && !net.redial)))
      && (outcome == Delivered <==>
            Reaches(l, net) && (net.first.ok || (net.redial && (k == |units| || net.second.ok))))
      && (outcome == UnitDropped <==> resent && !net.second.ok && k > 0 && Remnant(ws, n) != [])
      && (outcome == SendFailed <==> resent && !net.second.ok && (k == 0 || Remnant(ws, n) == []))
  {
    WiresAreNotEmpty(units);
    ResumingMeansCutInside(Wires(units), ends, net.first.accepted);
  }

  /** A failed delivery of which no unit landed is never put down to a dropped unit. */
  lemma {:induction false} NothingLandedIsNoDrop(l: Links, units: seq<PDU>, ends: seq<nat>, net: Net)
    requires l.Valid() && AllSendable(units) && units != []
    requires Boundaries(Wires(units), ends)
    requires Within(ends, 0, |Stream(units)|) && HonestNet(Stream(units), ends, net)
    requires Gained(l, Deliver(l, Stream(units), ends, net).0) == []
    ensures Deliver(l, Stream(units), ends, net).1 in {AfterClose, DialFailed, SendFailed}
  {
    OutcomeExactlyWhen(l, units, ends, net);
    DeliveryIsPrefix(l, units, ends, net);
    DeliveredMeansAll(l, units, ends, net);
  }

  /**
   What a delivery leaves: a connection is held afterwards exactly if it answered nil, and one was
   dialled for a client without one and one for each retry, and no others.
   */
  lemma {:induction false} HeldExactlyWhenDelivered(l: Links, b: seq<octet>, ends: seq<nat>, net: Net)
    requires l.Valid() && Within(ends, 0, |b|) && HonestNet(b, ends, net)
    ensures var (after, outcome) := Deliver(l, b, ends, net);
      && after.Valid() && after.closed == l.closed
      && (l.closed ==> after == l)
      && (!l.closed ==> (after.live.Some? <==> outcome == Delivered))
      && |after.sent| == |l.sent| + (if !l.closed && l.live.None? && net.dial then 1 else 0)
           + (if Reaches(l, net) && !net.first.ok && net.redial then 1 else 0)
      && (Reaches(l, net) && net.first.ok && l.live.Some? ==> after.live == l.live)
      && (!l.closed && (l.live.None? || !net.first.ok) && outcome == Delivered ==>
            after.live == Some(|after.sent| - 1))
  {
  }
}
