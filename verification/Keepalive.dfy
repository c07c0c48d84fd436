/**
 Keepalive PDUs and their per-connection counter, x2x3/keepalive.go (ETSI TS 103 221-2,
 sections 5.1, 5.3.9 and 6.2.4).
 */
module Keepalive {
  import opened Wrappers
  import opened Octets
  import opened Pdu
  import opened PduProperties

  const ATTR_SEQUENCE_NUMBER: u16 := 8

  /** Every field but the type and the Sequence Number attribute is zero. */
  function KeepalivePdu(typ: u16, number: u32): PDU {
    PDU(typ, 0, 0, seq(16, _ => 0), seq(8, _ => 0), [Attribute(ATTR_SEQUENCE_NUMBER, PutU32(number))], [])
  }

  function KeepaliveOf(number: u32): PDU {
    KeepalivePdu(TYPE_KEEPALIVE, number)
  }

  function AckOf(number: u32): PDU {
    KeepalivePdu(TYPE_KEEPALIVE_ACK, number)
  }

  function SequenceIn(attributes: seq<Attribute>): Option<u32> {
    if attributes == [] then None
    else if attributes[0].typ == ATTR_SEQUENCE_NUMBER && |attributes[0].value| == 4 then
      Some(GetU32(attributes[0].value))
    else SequenceIn(attributes[1..])
  }

  /** KeepaliveSequence: the first well-formed Sequence Number attribute. */
  method KeepaliveSequence(p: PDU) returns (number: Option<u32>)
    ensures number == SequenceIn(p.attributes)
  {
    for i := 0 to |p.attributes|
      invariant SequenceIn(p.attributes) == SequenceIn(p.attributes[i..])
    {
      var a := p.attributes[i];
      if a.typ == ATTR_SEQUENCE_NUMBER && |a.value| == 4 {
        return Some(GetU32(a.value));
      }
      assert p.attributes[i..][1..] == p.attributes[i + 1..];
    }
    return None;
  }

  /** A Keepalive or its acknowledgement marshals, in 48 octets, and carries its number. */
  lemma {:induction false} KeepalivesAreSendable(typ: u16, number: u32)
    requires typ == TYPE_KEEPALIVE || typ == TYPE_KEEPALIVE_ACK
    ensures Sendable(KeepalivePdu(typ, number))
    ensures |Wire(KeepalivePdu(typ, number))| == 48
    ensures SequenceIn(KeepalivePdu(typ, number).attributes) == Some(number)
  {
    var p := KeepalivePdu(typ, number);
    assert ValuesFit(p.attributes);
    assert AttributeRegion(p.attributes) == AttributeOctets(p.attributes[0]) + AttributeRegion([]);
    U32RoundTrip(number);
    WireLength(p);
  }

  /** The octets of a Keepalive or an acknowledgement: everything zero but version, type, length and number. */
  lemma {:induction false} KeepaliveOctetsAre(typ: u16, number: u32)
    requires typ == 3 || typ == 4
    ensures TYPE_KEEPALIVE == 3 && TYPE_KEEPALIVE_ACK == 4
    ensures var b := Wire(KeepalivePdu(typ, number));
      && |b| == 48 && Four(b, 44) == number
      && b[..44] == [0, 5, 0, typ, 0, 0, 0, 48, 0, 0, 0, 0, 0, 0, 0, 0] + seq(24, _ => 0) + [0, 8, 0, 4]
  {
    var p := KeepalivePdu(typ, number);
    KeepalivesAreSendable(typ, number);
    WireLength(p);
    KeepaliveHeader(typ, number);
    KeepaliveRegion(typ, number);
    var b := Wire(p);
    assert b == MandatoryHeader(p, 48, 0) + AttributeRegion(p.attributes) + [];
    assert b[44..48] == PutU32(number);
    FourIsGetU32(b, 44);
    U32RoundTrip(number);
  }

  lemma {:induction false} KeepaliveHeader(typ: u16, number: u32)
    requires typ == 3 || typ == 4
    ensures MandatoryHeader(KeepalivePdu(typ, number), 48, 0) ==
      [0, 5, 0, typ, 0, 0, 0, 48, 0, 0, 0, 0, 0, 0, 0, 0] + seq(24, _ => 0)
  {
    assert PutU32(48) == [0, 0, 0, 48] && PutU32(0) == [0, 0, 0, 0] && PutU16(0) == [0, 0] && PutU16(typ) == [0, typ];
  }

  lemma {:induction false} KeepaliveRegion(typ: u16, number: u32)
    ensures ValuesFit(KeepalivePdu(typ, number).attributes)
    ensures AttributeRegion(KeepalivePdu(typ, number).attributes) == [0, 8, 0, 4] + PutU32(number)
  {
    var a := KeepalivePdu(typ, number).attributes;
    assert ValuesFit(a);
    assert AttributeRegion(a) == AttributeOctets(a[0]) + AttributeRegion([]);
  }

  /** The attribute a sequence number is read from: type 8, four octets, the first such. */
  ghost predicate FirstSequence(attributes: seq<Attribute>, i: nat) {
    && i < |attributes| && attributes[i].typ == 8 && |attributes[i].value| == 4
    && forall j :: 0 <= j < i ==> attributes[j].typ != 8 || |attributes[j].value| != 4
  }

  lemma {:induction false} SequenceIsFirst(attributes: seq<Attribute>)
    ensures SequenceIn(attributes).Some? <==> exists i: nat :: FirstSequence(attributes, i)
    ensures forall i: nat :: FirstSequence(attributes, i) ==>
      SequenceIn(attributes) == Some(Four(attributes[i].value, 0))
  {
    if attributes != [] {
      var rest := attributes[1..];
      SequenceIsFirst(rest);
      if attributes[0].typ == 8 && |attributes[0].value| == 4 {
        FourIsGetU32(attributes[0].value, 0);
        assert attributes[0].value[0..4] == attributes[0].value;
        assert FirstSequence(attributes, 0);
      } else {
        forall i: nat | FirstSequence(attributes, i)
          ensures i > 0 && FirstSequence(rest, i - 1) && rest[i - 1] == attributes[i]
        {
        }
        if i: nat :| FirstSequence(rest, i) {
          assert FirstSequence(attributes, i + 1);
        }
      }
    }
  }

  /** The number the next Keepalive of a connection carries after `taken` of them. */
  function Number(taken: nat): u32 {
    ToU32(taken)
  }

  /** Whether an acknowledgement of seq answers something sent and not yet answered. */
  predicate Acceptable(issued: u32, answered: Option<u32>, seq_: u32) {
    seq_ < issued && (answered.Some? ==> answered.value < seq_)
  }

  class Counter {
    var next: u32
    var highest: u32
    var answered: bool

    constructor ()
      ensures next == 0 && !answered
    {
      next, highest, answered := 0, 0, false;
    }

    function Answered(): Option<u32>
      reads this
    {
      if answered then Some(highest) else None
    }

    method Take(ghost taken: nat) returns (number: u32)
      requires next == ToU32(taken)
      modifies this`next
      ensures number == Number(taken) && next == ToU32(taken + 1)
    {
      number := next;
      next := if next == 0xFFFF_FFFF then 0 else next + 1;
    }

    method Accept(seq_: u32) returns (ok: bool)
      modifies this`highest, this`answered
      ensures ok <==> seq_ < next && (old(answered) ==> old(highest) < seq_)
      ensures ok == old(Acceptable(next, Answered(), seq_))
      ensures Answered() == if ok then Some(seq_) else old(Answered())
    {
      if seq_ >= next {
        return false;
      }
      if answered && seq_ <= highest {
        return false;
      }
      answered, highest := true, seq_;
      return true;
    }
  }
}
