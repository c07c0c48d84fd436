/**
 PDUs are self-delimiting, so a connection carries them back to back. This module says
 what a peer decodes from such a stream, and from one cut inside a unit.
 */
module Framing {
  import opened Octets
  import opened Pdu
  import opened PduProperties

  // ---------------------------------------------------------------- octet units

  /** Units one after another, with no framing between them. */
  function Join(ws: seq<seq<octet>>): (b: seq<octet>) {
    if ws == [] then [] else ws[0] + Join(ws[1..])
  }

  lemma {:induction false} Associate(a: seq<octet>, b: seq<octet>, c: seq<octet>)
    ensures a + (b + c) == a + b + c
  {
  }

  lemma {:induction false} JoinOfConcat(a: seq<seq<octet>>, b: seq<seq<octet>>)
    ensures Join(a + b) == Join(a) + Join(b)
  {
    if a == [] {
      assert a + b == b;
    } else {
      JoinOfConcat(a[1..], b);
      assert (a + b)[1..] == a[1..] + b;
      Associate(a[0], Join(a[1..]), Join(b));
    }
  }

  lemma {:induction false} JoinSnoc(a: seq<seq<octet>>, w: seq<octet>)
    ensures Join(a + [w]) == Join(a) + w
  {
    JoinOfConcat(a, [w]);
    assert Join([w]) == w;
  }

  /** How many whole units the first n octets of their join hold. */
  function WholeUnits(ws: seq<seq<octet>>, n: nat): (k: nat)
    ensures k <= |ws|
  {
    if ws == [] || n < |ws[0]| then 0 else 1 + WholeUnits(ws[1..], n - |ws[0]|)
  }

  /** The part of a unit behind the whole units in the first n octets. */
  function Remnant(ws: seq<seq<octet>>, n: nat): (t: seq<octet>)
    requires n <= |Join(ws)|
  {
    if ws == [] then []
    else if n < |ws[0]| then ws[0][..n]
    else Remnant(ws[1..], n - |ws[0]|)
  }

  lemma {:induction false} CutJoin(ws: seq<seq<octet>>, n: nat)
    requires n <= |Join(ws)|
    ensures Join(ws)[..n] == Join(ws[..WholeUnits(ws, n)]) + Remnant(ws, n)
  {
    if ws == [] {
    } else if n < |ws[0]| {
      assert Join(ws)[..n] == ws[0][..n];
    } else {
      var k, m := WholeUnits(ws, n), n - |ws[0]|;
      CutJoin(ws[1..], m);
      assert Join(ws)[..n] == ws[0] + Join(ws[1..])[..m];
      assert ws[..k][1..] == ws[1..][..k - 1];
    }
  }

  lemma {:induction false} RemnantIsPartOfUnit(ws: seq<seq<octet>>, n: nat)
    requires n <= |Join(ws)|
    ensures var k := WholeUnits(ws, n);
      if k == |ws| then Remnant(ws, n) == []
      else |Remnant(ws, n)| < |ws[k]| && Remnant(ws, n) == ws[k][..|Remnant(ws, n)|]
  {
    if ws != [] && n >= |ws[0]| {
      RemnantIsPartOfUnit(ws[1..], n - |ws[0]|);
    }
  }

  // ------------------------------------------------------------------ PDU units

  predicate AllSendable(units: seq<PDU>) {
    forall i :: 0 <= i < |units| ==> Sendable(units[i])
  }

  function Wires(units: seq<PDU>): (ws: seq<seq<octet>>)
    requires AllSendable(units)
    ensures |ws| == |units|
    ensures forall i :: 0 <= i < |units| ==> ws[i] == Wire(units[i])
  {
    seq(|units|, i requires 0 <= i < |units| => Wire(units[i]))
  }

  function Stream(units: seq<PDU>): (b: seq<octet>)
    requires AllSendable(units)
  {
    Join(Wires(units))
  }

  /** Every whole PDU a peer decodes from the front of b. */
  function DecodeAll(b: seq<octet>): seq<PDU>
    decreases |b|
  {
    match Decode(b)
    case Parsed(p, used) => [p] + DecodeAll(b[used..])
    case _ => []
  }

  /** t is the beginning of a unit, and not all of it. */
  ghost predicate Partial(t: seq<octet>) {
    t == [] || exists p, n :: Sendable(p) && 0 <= n < |Wire(p)| && t == Wire(p)[..n]
  }

  lemma {:induction false} PartialDecodesToNothing(t: seq<octet>)
    requires Partial(t)
    ensures DecodeAll(t) == []
  {
    if t != [] {
      var p, n :| Sendable(p) && 0 <= n < |Wire(p)| && t == Wire(p)[..n];
      StrictPrefixIsIncomplete(p, n);
    }
  }

  lemma {:induction false} DecodeAllTakes(p: PDU, t: seq<octet>)
    requires Sendable(p)
    ensures DecodeAll(Wire(p) + t) == [p] + DecodeAll(t)
  {
    RoundTrip(p, t);
    assert (Wire(p) + t)[|Wire(p)|..] == t;
  }

  lemma {:induction false} StreamCons(units: seq<PDU>)
    requires AllSendable(units) && units != []
    ensures Stream(units) == Wire(units[0]) + Stream(units[1..])
  {
    assert Wires(units)[1..] == Wires(units[1..]);
  }

  /** A peer decodes exactly the whole units sent, then whatever follows them. */
  lemma {:induction false} DecodeAllOfStream(units: seq<PDU>, t: seq<octet>)
    requires AllSendable(units)
    ensures DecodeAll(Stream(units) + t) == units + DecodeAll(t)
  {
    if units == [] {
      assert Stream(units) + t == t;
    } else {
      DecodeAllOfStream(units[1..], t);
      StreamCons(units);
      PrependUnit(units[0], Stream(units[1..]), t, units[1..]);
      assert [units[0]] + units[1..] == units;
    }
  }

  lemma {:induction false} PrependUnit(p: PDU, rest: seq<octet>, t: seq<octet>, units: seq<PDU>)
    requires Sendable(p)
    requires DecodeAll(rest + t) == units + DecodeAll(t)
    ensures DecodeAll(Wire(p) + rest + t) == [p] + units + DecodeAll(t)
  {
    assert Wire(p) + rest + t == Wire(p) + (rest + t);
    DecodeAllTakes(p, rest + t);
    assert [p] + (units + DecodeAll(t)) == [p] + units + DecodeAll(t);
  }

  lemma {:induction false} StreamOfConcat(a: seq<PDU>, b: seq<PDU>)
    requires AllSendable(a) && AllSendable(b)
    ensures AllSendable(a + b) && Stream(a + b) == Stream(a) + Stream(b)
  {
    assert Wires(a + b) == Wires(a) + Wires(b);
    JoinOfConcat(Wires(a), Wires(b));
  }

  /** A stream cut anywhere is its whole units and then a part of the next one. */
  lemma {:induction false} CutStream(units: seq<PDU>, n: nat)
    requires AllSendable(units) && n <= |Stream(units)|
    ensures var k := WholeUnits(Wires(units), n);
      && Stream(units)[..n] == Stream(units[..k]) + Remnant(Wires(units), n)
      && Partial(Remnant(Wires(units), n))
      && (k == |units| ==> n == |Stream(units)|)
  {
    var ws := Wires(units);
    var k := WholeUnits(ws, n);
    CutJoin(ws, n);
    RemnantIsPartOfUnit(ws, n);
    assert ws[..k] == Wires(units[..k]);
    if k < |units| {
      assert Sendable(units[k]) && ws[k] == Wire(units[k]);
    } else {
      assert units[..k] == units;
    }
  }

  /** What a peer decodes from a cut stream: the units wholly before the cut. */
  lemma {:induction false} DecodeAllOfCut(units: seq<PDU>, n: nat)
    requires AllSendable(units) && n <= |Stream(units)|
    ensures DecodeAll(Stream(units)[..n]) == units[..WholeUnits(Wires(units), n)]
  {
    CutStream(units, n);
    var k := WholeUnits(Wires(units), n);
    var tail := Remnant(Wires(units), n);
    PartialDecodesToNothing(tail);
    DecodeAllOfStream(units[..k], tail);
    assert units[..k] + [] == units[..k];
  }
}
