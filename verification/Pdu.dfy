/**
 The X2/X3 PDU codec of x2x3/x2x3.go (ETSI TS 103 221-2, section 5): a 40-octet
 mandatory header, a region of conditional attributes and a payload, with the two
 lengths carried in the header so that PDUs can be concatenated without framing.
 */
module Pdu {
  import opened Wrappers
  import opened Octets

  const MAJOR_VERSION: octet := 0
  const MINOR_VERSION: octet := 5
  const MANDATORY_HEADER_LENGTH: nat := 40
  const MAX_VALUE_LENGTH: nat := 0xFFFF

  const TYPE_X2: u16 := 1
  const TYPE_X3: u16 := 2
  const TYPE_KEEPALIVE: u16 := 3
  const TYPE_KEEPALIVE_ACK: u16 := 4

  type Xid = s: seq<octet> | |s| == 16 witness seq(16, _ => 0)
  type CorrelationId = s: seq<octet> | |s| == 8 witness seq(8, _ => 0)

  /** A conditional attribute; its two-octet length exists only on the wire. */
  datatype Attribute = Attribute(typ: u16, value: seq<octet>)

  datatype PDU = PDU(
    typ: u16,
    format: u16,
    direction: u16,
    xid: Xid,
    correlation: CorrelationId,
    attributes: seq<Attribute>,
    payload: seq<octet>)

  datatype PduError =
    | NilPdu
    | FormatNotAllowed(format: u16, typ: u16)
    | ValueTooLong(attribute: u16, length: nat)
    | HeaderTooShort(declared: u32)
    | UnsupportedMajorVersion(major: octet)
    | TruncatedAttributeHeader
    | TruncatedAttributeValue

  /** What Unmarshal answers: ErrIncomplete, any other error, or a PDU and its size. */
  datatype Decoded =
    | Incomplete
    | Malformed(error: PduError)
    | Parsed(pdu: PDU, used: nat)

  // ------------------------------------------------------------------ validation

  /** Formats permitted on X2 and on X3, table 5.4.1-1. */
  predicate KnownFormat(format: u16) {
    format <= 17
  }

  predicate PermittedOnX2(format: u16) {
    format in {1, 2, 3, 4, 5, 6, 9, 10, 11, 14, 15, 17}
  }

  predicate PermittedOnX3(format: u16) {
    format in {1, 2, 3, 4, 5, 6, 7, 8, 12, 13, 15, 16, 17}
  }

  predicate AllowedOn(format: u16, typ: u16) {
    KnownFormat(format) &&
    (typ == TYPE_X2 ==> PermittedOnX2(format)) &&
    (typ == TYPE_X3 ==> PermittedOnX3(format))
  }

  predicate FormatPermitted(p: PDU) {
    p.typ == TYPE_X2 || p.typ == TYPE_X3 ==> AllowedOn(p.format, p.typ)
  }

  // -------------------------------------------------------------------- encoding

  predicate ValuesFit(attributes: seq<Attribute>) {
    forall i :: 0 <= i < |attributes| ==> |attributes[i].value| <= MAX_VALUE_LENGTH
  }

  function AttributeOctets(a: Attribute): (b: seq<octet>)
    requires |a.value| <= MAX_VALUE_LENGTH
    ensures |b| == 4 + |a.value|
  {
    PutU16(a.typ) + PutU16(|a.value|) + a.value
  }

  function AttributeRegion(attributes: seq<Attribute>): (b: seq<octet>)
    requires ValuesFit(attributes)
  {
    if attributes == [] then []
    else AttributeOctets(attributes[0]) + AttributeRegion(attributes[1..])
  }

  /** The header laid out from the octets of its fields. */
  function HeaderLayout(typ: seq<octet>, header: seq<octet>, payload: seq<octet>, format: seq<octet>,
                        direction: seq<octet>, xid: seq<octet>, correlation: seq<octet>): seq<octet>
  {
    [MAJOR_VERSION, MINOR_VERSION] + typ + header + payload + format + direction + xid + correlation
  }

  function MandatoryHeader(p: PDU, header: u32, payload: u32): (b: seq<octet>)
    ensures |b| == MANDATORY_HEADER_LENGTH
  {
    HeaderLayout(PutU16(p.typ), PutU32(header), PutU32(payload),
                 PutU16(p.format), PutU16(p.direction), p.xid, p.correlation)
  }

  function HeaderLength(p: PDU): nat
    requires ValuesFit(p.attributes)
  {
    MANDATORY_HEADER_LENGTH + |AttributeRegion(p.attributes)|
  }

  /** The wire form of a PDU that Marshal accepts. */
  function Wire(p: PDU): (b: seq<octet>)
    requires ValuesFit(p.attributes)
  {
    MandatoryHeader(p, ToU32(HeaderLength(p)), ToU32(|p.payload|))
    + AttributeRegion(p.attributes) + p.payload
  }

  /** The first attribute whose value does not fit its two-octet length, if any. */
  function FirstTooLong(attributes: seq<Attribute>): (e: Option<PduError>)
    ensures e.None? <==> ValuesFit(attributes)
  {
    if attributes == [] then None
    else if |attributes[0].value| > MAX_VALUE_LENGTH then
      Some(ValueTooLong(attributes[0].typ, |attributes[0].value|))
    else
      assert ValuesFit(attributes[1..]) ==> ValuesFit(attributes) by {
        assert attributes == [attributes[0]] + attributes[1..];
      }
      FirstTooLong(attributes[1..])
  }

  function Encode(p: PDU): Result<seq<octet>, PduError> {
    if !FormatPermitted(p) then Failure(FormatNotAllowed(p.format, p.typ))
    else if FirstTooLong(p.attributes).Some? then Failure(FirstTooLong(p.attributes).value)
    else Success(Wire(p))
  }

  /** The condition Marshal relies on and does not check: both lengths fit 32 bits. */
  predicate LengthsFit(p: PDU)
    requires ValuesFit(p.attributes)
  {
    HeaderLength(p) < 0x1_0000_0000 && |p.payload| < 0x1_0000_0000
  }

  /** A PDU that Marshal accepts and whose lengths survive the header. */
  predicate Sendable(p: PDU) {
    FormatPermitted(p) && ValuesFit(p.attributes) && LengthsFit(p)
  }

  // -------------------------------------------------------------------- decoding

  function ParseAttributes(b: seq<octet>): Result<seq<Attribute>, PduError> {
    if b == [] then Success([])
    else if |b| < 4 then Failure(TruncatedAttributeHeader)
    else
      var n := GetU16(b[2..4]);
      if |b| < 4 + n then Failure(TruncatedAttributeValue)
      else
        var rest := ParseAttributes(b[4 + n..]);
        if rest.Failure? then rest
        else Success([Attribute(GetU16(b[..2]), b[4..4 + n])] + rest.value)
  }

  function DeclaredHeader(b: seq<octet>): u32
    requires |b| >= 12
  {
    GetU32(b[4..8])
  }

  function DeclaredPayload(b: seq<octet>): u32
    requires |b| >= 12
  {
    GetU32(b[8..12])
  }

  /** The size a buffer's first twelve octets claim for the PDU at its front. */
  function Declared(b: seq<octet>): nat
    requires |b| >= 12
  {
    DeclaredHeader(b) + DeclaredPayload(b)
  }

  /** The PDU at the front of b, given its attributes have been parsed. */
  function Assemble(b: seq<octet>, attributes: seq<Attribute>): PDU
    requires |b| >= 12 && DeclaredHeader(b) >= MANDATORY_HEADER_LENGTH && Declared(b) <= |b|
  {
    PDU(GetU16(b[2..4]), GetU16(b[12..14]), GetU16(b[14..16]), b[16..32], b[32..40],
        attributes, b[DeclaredHeader(b)..Declared(b)])
  }

  function Decode(b: seq<octet>): (d: Decoded)
    ensures d.Parsed? ==> |b| >= 12 && MANDATORY_HEADER_LENGTH <= d.used == Declared(b) <= |b|
  {
    if |b| < 12 then Incomplete
    else if DeclaredHeader(b) < MANDATORY_HEADER_LENGTH then Malformed(HeaderTooShort(DeclaredHeader(b)))
    else if Declared(b) > |b| then Incomplete
    else if b[0] != MAJOR_VERSION then Malformed(UnsupportedMajorVersion(b[0]))
    else
      match ParseAttributes(b[MANDATORY_HEADER_LENGTH..DeclaredHeader(b)])
      case Failure(e) => Malformed(e)
      case Success(attributes) =>
        var p := Assemble(b, attributes);
        if FormatPermitted(p) then Parsed(p, Declared(b))
        else Malformed(FormatNotAllowed(p.format, p.typ))
  }
}
