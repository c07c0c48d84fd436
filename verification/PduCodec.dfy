/**
 Marshal and Unmarshal as x2x3/x2x3.go runs them: a sizing pass, a buffer of its final
 length filled in place at a moving offset, and a loop over a shrinking attribute slice.
 */
module PduCodec {
  import opened Wrappers
  import opened Octets
  import opened Pdu

  /** copy(dst[off:], src). */
  method CopyInto(dst: array<octet>, off: nat, src: seq<octet>)
    requires off + |src| <= dst.Length
    modifies dst
    ensures dst[..] == old(dst[..off]) + src + old(dst[off + |src|..])
  {
    forall i | 0 <= i < |src| {
      dst[off + i] := src[i];
    }
  }

  lemma {:induction false} RegionOfConcat(a: seq<Attribute>, b: seq<Attribute>)
    requires ValuesFit(a + b)
    ensures ValuesFit(a) && ValuesFit(b)
    ensures AttributeRegion(a + b) == AttributeRegion(a) + AttributeRegion(b)
  {
    assert forall i :: 0 <= i < |a| ==> a[i] == (a + b)[i];
    assert forall i :: 0 <= i < |b| ==> b[i] == (a + b)[|a| + i];
    if a == [] {
      assert a + b == b;
    } else {
      assert (a + b)[1..] == a[1..] + b;
      RegionOfConcat(a[1..], b);
    }
  }

  lemma {:induction false} RegionSnoc(attributes: seq<Attribute>, i: nat)
    requires i < |attributes| && ValuesFit(attributes[..i + 1])
    ensures ValuesFit(attributes[..i])
    ensures AttributeRegion(attributes[..i + 1])
         == AttributeRegion(attributes[..i]) + AttributeOctets(attributes[i])
  {
    assert attributes[..i + 1] == attributes[..i] + [attributes[i]];
    RegionOfConcat(attributes[..i], [attributes[i]]);
    assert AttributeRegion([attributes[i]]) == AttributeOctets(attributes[i]);
  }

  /** The sizing pass: the length of the attribute region, or the first value too long. */
  method SizeAttributes(attributes: seq<Attribute>) returns (r: Result<nat, PduError>)
    ensures r.Failure? ==> FirstTooLong(attributes) == Some(r.error)
    ensures r.Success? ==> ValuesFit(attributes) && r.value == |AttributeRegion(attributes)|
  {
    var size := 0;
    for i := 0 to |attributes|
      invariant ValuesFit(attributes[..i])
      invariant size == |AttributeRegion(attributes[..i])|
      invariant FirstTooLong(attributes) == FirstTooLong(attributes[i..])
    {
      if |attributes[i].value| > MAX_VALUE_LENGTH {
        return Failure(ValueTooLong(attributes[i].typ, |attributes[i].value|));
      }
      assert attributes[i..][1..] == attributes[i + 1..];
      assert attributes[..i + 1] == attributes[..i] + [attributes[i]];
      RegionSnoc(attributes, i);
      size := size + 4 + |attributes[i].value|;
    }
    assert attributes[..|attributes|] == attributes;
    return Success(size);
  }

  /** Writes the attributes at their offsets behind the mandatory header. */
  method FillAttributes(out: array<octet>, attributes: seq<Attribute>)
    requires ValuesFit(attributes)
    requires out.Length == MANDATORY_HEADER_LENGTH + |AttributeRegion(attributes)|
    modifies out
    ensures out[..] == old(out[..MANDATORY_HEADER_LENGTH]) + AttributeRegion(attributes)
  {
    ghost var header := out[..MANDATORY_HEADER_LENGTH];
    var off := MANDATORY_HEADER_LENGTH;
    for i := 0 to |attributes|
      invariant ValuesFit(attributes[..i])
      invariant off == MANDATORY_HEADER_LENGTH + |AttributeRegion(attributes[..i])| <= out.Length
      invariant out[..off] == header + AttributeRegion(attributes[..i])
    {
      RegionSnoc(attributes, i);
      assert attributes == attributes[..i + 1] + attributes[i + 1..];
      RegionOfConcat(attributes[..i + 1], attributes[i + 1..]);
      var a := AttributeOctets(attributes[i]);
      assert off + |a| <= out.Length;
      CopyInto(out, off, a);
      assert out[..off + |a|] == header + AttributeRegion(attributes[..i]) + a;
      off := off + |a|;
    }
    assert attributes[..|attributes|] == attributes;
    assert out[..off] == out[..];
  }

  /** PDU.Marshal; None is the nil receiver. */
  method Marshal(pdu: Option<PDU>) returns (r: Result<seq<octet>, PduError>)
    ensures r == if pdu.None? then Failure(NilPdu) else Encode(pdu.value)
  {
    if pdu.None? {
      return Failure(NilPdu);
    }
    var p := pdu.value;
    if !FormatPermitted(p) {
      return Failure(FormatNotAllowed(p.format, p.typ));
    }
    var size := SizeAttributes(p.attributes);
    if size.Failure? {
      return Failure(size.error);
    }
    var headerLength := MANDATORY_HEADER_LENGTH + size.value;
    var out := new octet[headerLength](_ => 0);
    var header := MandatoryHeader(p, ToU32(headerLength), ToU32(|p.payload|));
    CopyInto(out, 0, header);
    assert out[..MANDATORY_HEADER_LENGTH] == header;
    FillAttributes(out, p.attributes);
    return Success(out[..] + p.payload);
  }

  /** parseTLVs. */
  method ParseTlvs(region: seq<octet>) returns (r: Result<seq<Attribute>, PduError>)
    ensures r == ParseAttributes(region)
  {
    var out, b: seq<octet> := [], region;
    assert forall rest: seq<Attribute> {:trigger out + rest} :: out + rest == rest;
    while |b| > 0
      invariant match ParseAttributes(b)
                case Success(rest) => ParseAttributes(region) == Success(out + rest)
                case Failure(e) => ParseAttributes(region) == Failure(e)
    {
      if |b| < 4 {
        return Failure(TruncatedAttributeHeader);
      }
      var n: nat := GetU16(b[2..4]);
      if |b| < 4 + n {
        return Failure(TruncatedAttributeValue);
      }
      var a := Attribute(GetU16(b[..2]), b[4..4 + n]);
      assert forall rest: seq<Attribute> {:trigger out + [a] + rest} :: out + [a] + rest == out + ([a] + rest);
      out, b := out + [a], b[4 + n..];
    }
    assert out + [] == out;
    return Success(out);
  }

  method Unmarshal(b: seq<octet>) returns (d: Decoded)
    ensures d == Decode(b)
  {
    if |b| < 12 {
      return Incomplete;
    }
    var headerLength, payloadLength := GetU32(b[4..8]), GetU32(b[8..12]);
    if headerLength < MANDATORY_HEADER_LENGTH {
      return Malformed(HeaderTooShort(headerLength));
    }
    if headerLength as int + payloadLength > |b| {
      return Incomplete;
    }
    var total := headerLength as int + payloadLength;
    if b[0] != MAJOR_VERSION {
      return Malformed(UnsupportedMajorVersion(b[0]));
    }
    var attributes := ParseTlvs(b[MANDATORY_HEADER_LENGTH..headerLength]);
    if attributes.Failure? {
      return Malformed(attributes.error);
    }
    var p := PDU(GetU16(b[2..4]), GetU16(b[12..14]), GetU16(b[14..16]), b[16..32], b[32..40],
                 attributes.value, b[headerLength..total]);
    if !FormatPermitted(p) {
      return Malformed(FormatNotAllowed(p.format, p.typ));
    }
    return Parsed(p, total);
  }
}
