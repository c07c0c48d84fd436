/** What the codec promises: framing, round trips in both directions, prefix freedom. */
module PduProperties {
  import opened Wrappers
  import opened Octets
  import opened Pdu

  // ---------------------------------------------------------------- attributes

  lemma {:induction false} AttributeReads(a: Attribute, tail: seq<octet>, b: seq<octet>)
    requires |a.value| <= MAX_VALUE_LENGTH && b == AttributeOctets(a) + tail
    ensures |b| == 4 + |a.value| + |tail|
    ensures GetU16(b[..2]) == a.typ && GetU16(b[2..4]) == |a.value|
    ensures b[4..4 + |a.value|] == a.value && b[4 + |a.value|..] == tail
  {
    U16RoundTrip(a.typ);
    U16RoundTrip(|a.value|);
    assert b[..2] == PutU16(a.typ);
    assert b[2..4] == PutU16(|a.value|);
  }

  lemma {:induction false} ParseInvertsRegion(attributes: seq<Attribute>)
    requires ValuesFit(attributes)
    ensures ParseAttributes(AttributeRegion(attributes)) == Success(attributes)
  {
    if attributes != [] {
      ParseInvertsRegion(attributes[1..]);
      ParsePrepends(attributes[0], AttributeRegion(attributes[1..]), AttributeRegion(attributes));
      assert attributes == [attributes[0]] + attributes[1..];
    }
  }

  lemma {:induction false} ParsePrepends(a: Attribute, tail: seq<octet>, b: seq<octet>)
    requires |a.value| <= MAX_VALUE_LENGTH && b == AttributeOctets(a) + tail
    requires ParseAttributes(tail).Success?
    ensures ParseAttributes(b) == Success([a] + ParseAttributes(tail).value)
  {
    AttributeReads(a, tail, b);
    assert a == Attribute(GetU16(b[..2]), b[4..4 + |a.value|]);
  }

  lemma {:induction false} RegionInvertsParse(b: seq<octet>)
    requires ParseAttributes(b).Success?
    ensures ValuesFit(ParseAttributes(b).value)
    ensures AttributeRegion(ParseAttributes(b).value) == b
    decreases |b|
  {
    if b != [] {
      var n := GetU16(b[2..4]);
      RegionInvertsParse(b[4 + n..]);
      AttributeReread(b, n);
      var first, rest := Attribute(GetU16(b[..2]), b[4..4 + n]), ParseAttributes(b[4 + n..]).value;
      var all := [first] + rest;
      assert ParseAttributes(b).value == all;
      assert all[0] == first && all[1..] == rest;
    }
  }

  lemma {:induction false} AttributeReread(b: seq<octet>, n: nat)
    requires |b| >= 4 + n && n == GetU16(b[2..4])
    ensures AttributeOctets(Attribute(GetU16(b[..2]), b[4..4 + n])) + b[4 + n..] == b
  {
    U16Reread(b[..2]);
    U16Reread(b[2..4]);
    assert b == b[..2] + b[2..4] + b[4..4 + n] + b[4 + n..];
  }

  // -------------------------------------------------------------------- fields

  /** The fixed header fields of b read as those of p. */
  ghost predicate FixedFieldsRead(b: seq<octet>, p: PDU)
    requires |b| >= MANDATORY_HEADER_LENGTH
  {
    && b[0] == MAJOR_VERSION
    && GetU16(b[2..4]) == p.typ
    && GetU16(b[12..14]) == p.format
    && GetU16(b[14..16]) == p.direction
    && b[16..32] == p.xid
    && b[32..40] == p.correlation
  }

  lemma {:induction false} HeaderReads(p: PDU, header: u32, payload: u32, tail: seq<octet>, b: seq<octet>)
    requires b == MandatoryHeader(p, header, payload) + tail
    ensures FixedFieldsRead(b, p)
    ensures DeclaredHeader(b) == header && DeclaredPayload(b) == payload
  {
    LayoutReads(PutU16(p.typ), PutU32(header), PutU32(payload), PutU16(p.format), PutU16(p.direction),
                p.xid, p.correlation, tail, b);
    U16RoundTrip(p.typ);
    U16RoundTrip(p.format);
    U16RoundTrip(p.direction);
    U32RoundTrip(header);
    U32RoundTrip(payload);
  }

  lemma {:induction false} LayoutReads(t: seq<octet>, h: seq<octet>, l: seq<octet>, f: seq<octet>, d: seq<octet>,
                    x: seq<octet>, c: seq<octet>, tail: seq<octet>, b: seq<octet>)
    requires |t| == |f| == |d| == 2 && |h| == |l| == 4 && |x| == 16 && |c| == 8
    requires b == HeaderLayout(t, h, l, f, d, x, c) + tail
    ensures |b| == 40 + |tail| && b[0] == MAJOR_VERSION
    ensures b[2..4] == t && b[4..8] == h && b[8..12] == l && b[12..14] == f && b[14..16] == d
    ensures b[16..32] == x && b[32..40] == c && b[40..] == tail
  {
  }

  /** Where each part of a marshalled PDU lies in a buffer it starts. */
  lemma {:induction false} WireReads(p: PDU, s: seq<octet>, b: seq<octet>)
    requires ValuesFit(p.attributes)
    requires b == Wire(p) + s
    ensures |b| == HeaderLength(p) + |p.payload| + |s|
    ensures FixedFieldsRead(b, p)
    ensures DeclaredHeader(b) == ToU32(HeaderLength(p))
    ensures DeclaredPayload(b) == ToU32(|p.payload|)
    ensures b[MANDATORY_HEADER_LENGTH..HeaderLength(p)] == AttributeRegion(p.attributes)
    ensures b[HeaderLength(p)..HeaderLength(p) + |p.payload|] == p.payload
  {
    var region := AttributeRegion(p.attributes);
    var tail := region + p.payload + s;
    var h: u32, l: u32 := ToU32(HeaderLength(p)), ToU32(|p.payload|);
    assert b == MandatoryHeader(p, h, l) + tail;
    HeaderReads(p, h, l, tail, b);
    assert b[MANDATORY_HEADER_LENGTH..] == tail;
    assert tail[..|region|] == region;
    assert tail[|region|..|region| + |p.payload|] == p.payload;
  }

  lemma {:induction false} WireLength(p: PDU)
    requires ValuesFit(p.attributes)
    ensures |Wire(p)| == HeaderLength(p) + |p.payload|
  {
  }

  /** A buffer whose fields read as those of p decodes to p. */
  lemma {:induction false} DecodeFromFields(b: seq<octet>, p: PDU, h: nat, total: nat)
    requires FormatPermitted(p)
    requires MANDATORY_HEADER_LENGTH <= h <= total <= |b| && FixedFieldsRead(b, p)
    requires DeclaredHeader(b) == h && Declared(b) == total
    requires ParseAttributes(b[MANDATORY_HEADER_LENGTH..h]) == Success(p.attributes)
    requires b[h..total] == p.payload
    ensures Decode(b) == Parsed(p, total)
  {
    assert Assemble(b, p.attributes) == p;
  }

  lemma {:induction false} DecodesWhenLengthsFit(p: PDU, s: seq<octet>, b: seq<octet>)
    requires Sendable(p)
    requires b == Wire(p) + s
    ensures Decode(b) == Parsed(p, HeaderLength(p) + |p.payload|)
  {
    WireReads(p, s, b);
    var h, total := HeaderLength(p), HeaderLength(p) + |p.payload|;
    ParseInvertsRegion(p.attributes);
    assert DeclaredHeader(b) == h;
    DecodeFromFields(b, p, h, total);
  }

  lemma {:induction false} TruncatedLengthsMissize(p: PDU, s: seq<octet>, b: seq<octet>)
    requires ValuesFit(p.attributes) && !LengthsFit(p)
    requires b == Wire(p) + s
    ensures |b| >= 12 && Declared(b) < HeaderLength(p) + |p.payload|
  {
    WireReads(p, s, b);
  }

  // ------------------------------------------------------------- main results

  /**
   Decoding what Marshal wrote, whatever follows it in the buffer, gives the PDU back
   and consumes exactly its octets -- if and only if both lengths fit in 32 bits.
   */
  lemma {:induction false} RoundTrip(p: PDU, s: seq<octet>)
    requires FormatPermitted(p) && ValuesFit(p.attributes)
    ensures Decode(Wire(p) + s) == Parsed(p, |Wire(p)|) <==> LengthsFit(p)
  {
    WireLength(p);
    if LengthsFit(p) {
      DecodesWhenLengthsFit(p, s, Wire(p) + s);
    } else {
      TruncatedLengthsMissize(p, s, Wire(p) + s);
    }
  }

  /** Marshal accepts a payload of 2^32 octets, and the decoder does not get it back. */
  lemma {:induction false} OversizePayloadIsNotRecovered()
    ensures exists p: PDU :: Encode(p).Success? && Decode(Encode(p).value) != Parsed(p, |Encode(p).value|)
  {
    var p := PDU(TYPE_X3, 5, 2, seq(16, _ => 0), seq(8, _ => 0), [], seq(0x1_0000_0000, _ => 0));
    assert Encode(p) == Success(Wire(p));
    RoundTrip(p, []);
    assert Wire(p) + [] == Wire(p);
    assert !LengthsFit(p);
    assert Encode(p).Success? && Decode(Encode(p).value) != Parsed(p, |Encode(p).value|);
  }

  /** A reader that has only part of a PDU is told to wait, never given an error. */
  lemma {:induction false} StrictPrefixIsIncomplete(p: PDU, n: nat)
    requires Sendable(p)
    requires n < |Wire(p)|
    ensures Decode(Wire(p)[..n]) == Incomplete
  {
    WireLength(p);
    assert Wire(p) + [] == Wire(p);
    WireReads(p, [], Wire(p));
    PrefixOfDeclaredIsIncomplete(Wire(p), n);
  }

  /** Every strict prefix of what Marshal wrote is incomplete if and only if both lengths fit in 32 bits. */
  lemma {:induction false} PrefixesIncompleteExactlyWhen(p: PDU)
    requires FormatPermitted(p) && ValuesFit(p.attributes)
    ensures (forall n :: 0 <= n < |Wire(p)| ==> Decode(Wire(p)[..n]) == Incomplete) <==> LengthsFit(p)
  {
    if LengthsFit(p) {
      forall n | 0 <= n < |Wire(p)| ensures Decode(Wire(p)[..n]) == Incomplete {
        StrictPrefixIsIncomplete(p, n);
      }
    } else {
      WireLength(p);
      assert Wire(p) + [] == Wire(p);
      TruncatedLengthsMissize(p, [], Wire(p));
      UndersizedIsDecided(Wire(p));
    }
  }

  lemma {:induction false} UndersizedIsDecided(w: seq<octet>)
    requires 12 < |w| && Declared(w) < |w|
    ensures Decode(w[..|w| - 1]) != Incomplete
  {
    var b := w[..|w| - 1];
    assert b[4..8] == w[4..8] && b[8..12] == w[8..12];
  }

  lemma {:induction false} PrefixOfDeclaredIsIncomplete(w: seq<octet>, n: nat)
    requires 12 <= |w| && n < |w| == Declared(w) && DeclaredHeader(w) >= MANDATORY_HEADER_LENGTH
    ensures Decode(w[..n]) == Incomplete
  {
    var b := w[..n];
    if n >= 12 {
      assert b[4..8] == w[4..8] && b[8..12] == w[8..12];
    }
  }

  /** More octets never change a verdict other than Incomplete. */
  lemma {:induction false} DecodeIgnoresSuffix(b: seq<octet>, s: seq<octet>)
    requires !Decode(b).Incomplete?
    ensures Decode(b + s) == Decode(b)
  {
    var c := b + s;
    assert c[4..8] == b[4..8] && c[8..12] == b[8..12];
    if DeclaredHeader(b) >= MANDATORY_HEADER_LENGTH {
      assert c[2..4] == b[2..4] && c[12..14] == b[12..14] && c[14..16] == b[14..16];
      assert c[16..32] == b[16..32] && c[32..40] == b[32..40];
      var h := DeclaredHeader(b);
      assert c[MANDATORY_HEADER_LENGTH..h] == b[MANDATORY_HEADER_LENGTH..h];
      assert c[h..Declared(b)] == b[h..Declared(b)];
    }
  }

  /** Re-marshalling an accepted buffer reproduces it, but for the minor version. */
  lemma {:induction false} RemarshalReproduces(b: seq<octet>)
    requires Decode(b).Parsed?
    ensures Sendable(Decode(b).pdu)
    ensures Encode(Decode(b).pdu) == Success(b[..Decode(b).used][1 := MINOR_VERSION])
  {
    var p := Decode(b).pdu;
    var h, used := DeclaredHeader(b), Declared(b);
    RegionInvertsParse(b[MANDATORY_HEADER_LENGTH..h]);
    assert AttributeRegion(p.attributes) == b[MANDATORY_HEADER_LENGTH..h];
    assert HeaderLength(p) == h;
    HeaderReread(b, p);
    SplitReread(b, h, used);
  }

  lemma {:induction false} SplitReread(b: seq<octet>, h: nat, used: nat)
    requires MANDATORY_HEADER_LENGTH <= h <= used <= |b|
    ensures b[..40][1 := MINOR_VERSION] + b[MANDATORY_HEADER_LENGTH..h] + b[h..used]
         == b[..used][1 := MINOR_VERSION]
  {
  }

  lemma {:induction false} HeaderReread(b: seq<octet>, p: PDU)
    requires |b| >= MANDATORY_HEADER_LENGTH && FixedFieldsRead(b, p)
    ensures MandatoryHeader(p, DeclaredHeader(b), DeclaredPayload(b)) == b[..40][1 := MINOR_VERSION]
  {
    U16Reread(b[2..4]);
    U16Reread(b[12..14]);
    U16Reread(b[14..16]);
    U32Reread(b[4..8]);
    U32Reread(b[8..12]);
    LayoutReread(b);
  }

  lemma {:induction false} LayoutReread(b: seq<octet>)
    requires |b| >= MANDATORY_HEADER_LENGTH && b[0] == MAJOR_VERSION
    ensures HeaderLayout(b[2..4], b[4..8], b[8..12], b[12..14], b[14..16], b[16..32], b[32..40])
         == b[..40][1 := MINOR_VERSION]
  {
  }

  // --------------------------------------------------------- the wire form, octet by octet

  /** Marshal accepts exactly the formats table 5.4.1-1 permits on X2 or X3 and values of at most 65535 octets. */
  lemma {:induction false} MarshalAcceptsExactlyWhen(p: PDU)
    ensures Encode(p).Success? <==>
      && (p.typ == 1 ==> p.format in {1, 2, 3, 4, 5, 6, 9, 10, 11, 14, 15, 17})
      && (p.typ == 2 ==> p.format in {1, 2, 3, 4, 5, 6, 7, 8, 12, 13, 15, 16, 17})
      && forall i :: 0 <= i < |p.attributes| ==> |p.attributes[i].value| <= 65535
    ensures Encode(p).Success? ==> Encode(p).value == Wire(p)
  {
  }

  /** What a refusal names: the format before any attribute, and the first value that is too long. */
  lemma {:induction false} MarshalRefusal(p: PDU, i: nat)
    requires i < |p.attributes| && |p.attributes[i].value| > 65535
    requires forall j :: 0 <= j < i ==> |p.attributes[j].value| <= 65535
    ensures Encode(p) == Failure(if !FormatPermitted(p) then FormatNotAllowed(p.format, p.typ)
      else ValueTooLong(p.attributes[i].typ, |p.attributes[i].value|))
  {
    FirstTooLongIs(p.attributes, i);
  }

  lemma {:induction false} FirstTooLongIs(attributes: seq<Attribute>, i: nat)
    requires i < |attributes| && |attributes[i].value| > MAX_VALUE_LENGTH
    requires forall j :: 0 <= j < i ==> |attributes[j].value| <= MAX_VALUE_LENGTH
    ensures FirstTooLong(attributes) == Some(ValueTooLong(attributes[i].typ, |attributes[i].value|))
  {
    if i > 0 {
      FirstTooLongIs(attributes[1..], i - 1);
    }
  }

  /** The unsigned number two or four octets hold, most significant first. */
  function Two(b: seq<octet>, at: nat): nat
    requires at + 2 <= |b|
  {
    256 * (b[at] as int) + b[at + 1]
  }

  function Four(b: seq<octet>, at: nat): nat
    requires at + 4 <= |b|
  {
    16777216 * (b[at] as int) + 65536 * (b[at + 1] as int) + 256 * (b[at + 2] as int) + b[at + 3]
  }

  lemma {:induction false} FourIsGetU32(b: seq<octet>, at: nat)
    requires at + 4 <= |b|
    ensures Four(b, at) == GetU32(b[at..at + 4])
  {
  }

  lemma {:induction false} TwoIsGetU16(b: seq<octet>, at: nat)
    requires at + 2 <= |b|
    ensures Two(b, at) == GetU16(b[at..at + 2])
  {
  }

  /** Where each field of a sendable PDU stands: version, type, both lengths, format, direction, XID, correlation. */
  lemma {:induction false} HeaderFieldsStand(p: PDU)
    requires Sendable(p)
    ensures var b := Wire(p);
      && |b| >= 40 && b[0] == 0 && b[1] == 5
      && Two(b, 2) == p.typ && Four(b, 4) == |b| - |p.payload| && Four(b, 8) == |p.payload|
      && Two(b, 12) == p.format && Two(b, 14) == p.direction
      && b[16..32] == p.xid && b[32..40] == p.correlation
      && b[40..|b| - |p.payload|] == AttributeRegion(p.attributes) && b[|b| - |p.payload|..] == p.payload
  {
    var b := Wire(p);
    assert b + [] == b;
    WireReads(p, [], b);
    WireLength(p);
    TwoIsGetU16(b, 2);
    TwoIsGetU16(b, 12);
    TwoIsGetU16(b, 14);
    FourIsGetU32(b, 4);
    FourIsGetU32(b, 8);
    assert b[HeaderLength(p)..] == b[HeaderLength(p)..HeaderLength(p) + |p.payload|];
  }

  /** One attribute: its type, its length and its value. */
  lemma {:induction false} AttributeStands(a: Attribute, rest: seq<Attribute>)
    requires |a.value| <= 65535 && ValuesFit(rest)
    ensures ValuesFit([a] + rest)
    ensures AttributeRegion([a] + rest) ==
      [a.typ / 256, a.typ % 256, |a.value| / 256, |a.value| % 256] + a.value + AttributeRegion(rest)
  {
    assert ([a] + rest)[1..] == rest;
  }

  /** The four answers that depend on the first twelve octets and the version alone. */
  lemma {:induction false} VerdictFromHeader(b: seq<octet>)
    ensures Decode(b) == Incomplete <==>
      |b| < 12 || (Four(b, 4) >= 40 && Four(b, 4) + Four(b, 8) > |b|)
    ensures |b| >= 12 && Four(b, 4) < 40 ==> Decode(b) == Malformed(HeaderTooShort(Four(b, 4)))
    ensures |b| >= 12 && Four(b, 4) >= 40 && Four(b, 4) + Four(b, 8) <= |b| && b[0] != 0 ==>
      Decode(b) == Malformed(UnsupportedMajorVersion(b[0]))
  {
    if |b| >= 12 {
      FourIsGetU32(b, 4);
      FourIsGetU32(b, 8);
    }
  }

  /** Attributes followed by something that is not one: too short for a header, or for the value it declares. */
  lemma {:induction false} TruncatedAttributes(attributes: seq<Attribute>, t: seq<octet>)
    requires ValuesFit(attributes) && t != []
    ensures |t| < 4 ==> ParseAttributes(AttributeRegion(attributes) + t) == Failure(TruncatedAttributeHeader)
    ensures |t| >= 4 && |t| < 4 + Two(t, 2) ==>
      ParseAttributes(AttributeRegion(attributes) + t) == Failure(TruncatedAttributeValue)
  {
    if |t| >= 4 {
      TwoIsGetU16(t, 2);
    }
    if ParseAttributes(t).Failure? {
      FailsBehindAttributes(attributes, t);
    }
  }

  lemma {:induction false} FailsBehindAttributes(attributes: seq<Attribute>, t: seq<octet>)
    requires ValuesFit(attributes) && ParseAttributes(t).Failure?
    ensures ParseAttributes(AttributeRegion(attributes) + t) == ParseAttributes(t)
  {
    if attributes == [] {
      assert [] + t == t;
    } else {
      FailsBehindAttributes(attributes[1..], t);
      RegionThen(attributes, t);
      ParsePrependsFailure(attributes[0], AttributeRegion(attributes[1..]) + t, AttributeRegion(attributes) + t);
    }
  }

  lemma {:induction false} RegionThen(attributes: seq<Attribute>, t: seq<octet>)
    requires attributes != [] && ValuesFit(attributes)
    ensures AttributeRegion(attributes) + t
      == AttributeOctets(attributes[0]) + (AttributeRegion(attributes[1..]) + t)
  {
    assert AttributeRegion(attributes) == AttributeOctets(attributes[0]) + AttributeRegion(attributes[1..]);
  }

  lemma {:induction false} ParsePrependsFailure(a: Attribute, tail: seq<octet>, b: seq<octet>)
    requires |a.value| <= MAX_VALUE_LENGTH && b == AttributeOctets(a) + tail
    ensures ParseAttributes(tail).Failure? ==> ParseAttributes(b) == ParseAttributes(tail)
  {
    AttributeReads(a, tail, b);
  }

  lemma {:induction false} MinorVersionIsIgnored(b: seq<octet>, minor: octet)
    requires |b| >= 12
    ensures Decode(b[1 := minor]) == Decode(b)
  {
    var c := b[1 := minor];
    assert c[4..8] == b[4..8] && c[8..12] == b[8..12] && c[2..4] == b[2..4];
    if DeclaredHeader(b) >= MANDATORY_HEADER_LENGTH && Declared(b) <= |b| {
      var h := DeclaredHeader(b);
      assert c[12..14] == b[12..14] && c[14..16] == b[14..16] && c[16..32] == b[16..32] && c[32..40] == b[32..40];
      assert c[MANDATORY_HEADER_LENGTH..h] == b[MANDATORY_HEADER_LENGTH..h];
      assert c[h..Declared(b)] == b[h..Declared(b)];
    }
  }

  /** b starts with the wire form of p, under any minor version. */
  ghost predicate StartsWith(b: seq<octet>, p: PDU) {
    Sendable(p) && 12 <= |Wire(p)| <= |b| && b[..|Wire(p)|][1 := MINOR_VERSION] == Wire(p)
  }

  /** Unmarshal accepts exactly the buffers that start with what Marshal writes, and says which PDU it was. */
  lemma {:induction false} UnmarshalAcceptsExactlyWhen(b: seq<octet>)
    ensures Decode(b).Parsed? <==> exists p :: StartsWith(b, p)
    ensures forall p :: StartsWith(b, p) ==> Decode(b) == Parsed(p, |Wire(p)|)
  {
    if Decode(b).Parsed? {
      RemarshalReproduces(b);
      assert StartsWith(b, Decode(b).pdu);
    }
    forall p | StartsWith(b, p) ensures Decode(b) == Parsed(p, |Wire(p)|) {
      var n := |Wire(p)|;
      RoundTrip(p, b[n..]);
      assert b[1 := MINOR_VERSION] == Wire(p) + b[n..];
      MinorVersionIsIgnored(b, MINOR_VERSION);
    }
  }
}
