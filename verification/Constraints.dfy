/**
 The restrictions record values carry by type, iri/constraints.go, and the walk that refuses a
 record any of whose values violates its own.
 */
module Constraints {
  import opened Wrappers
  import opened Der
  import opened Schema
  import GoType
  import GoField

  datatype Range = Range(min: int, max: int)

  predicate Within(n: int, r: Range) {
    r.min <= n <= r.max
  }

  function OctetSize(t: GoType.Name): Option<Range> {
    match t
    case IPv4Address => Some(Range(4, 4))
    case IPv6Address => Some(Range(16, 16))
    case MACAddress => Some(Range(6, 6))
    case UEPolicy => Some(Range(16, 65540))
    case SliceDifferentiator => Some(Range(3, 3))
    case ServiceType => Some(Range(1, 1))
    case TAC => Some(Range(2, 3))
    case _ => None
  }

  function IntRange(t: GoType.Name): Option<Range> {
    match t
    case PDUSessionID => Some(Range(0, 255))
    case FiveGMMCause => Some(Range(0, 255))
    case FiveGSMCause => Some(Range(0, 255))
    case AMFUENGAPID => Some(Range(0, 1099511627775))
    case RANUENGAPID => Some(Range(0, 4294967295))
    case SliceServiceType => Some(Range(0, 255))
    case TEID => Some(Range(0, 4294967295))
    case AMFRegionID => Some(Range(0, 255))
    case AMFSetID => Some(Range(0, 1023))
    case AMFPointer => Some(Range(0, 63))
    case FiveGTMSI => Some(Range(0, 4294967295))
    case RoutingIndicator => Some(Range(0, 9999))
    case ProtectionSchemeID => Some(Range(0, 15))
    case SUPIType => Some(Range(0, 7))
    case RoutingIndicatorLength => Some(Range(1, 4))
    case _ => None
  }

  function EnumRange(t: GoType.Name): Option<Range> {
    match t
    case AMFRegistrationType => Some(Range(1, 7))
    case AMFRegistrationResult => Some(Range(1, 3))
    case AMFDirection => Some(Range(1, 2))
    case AccessType => Some(Range(1, 3))
    case PDUSessionType => Some(Range(1, 5))
    case FiveGSMRequestType => Some(Range(1, 7))
    case AMFFailedProcedureType => Some(Range(1, 3))
    case SMFFailedProcedureType => Some(Range(1, 3))
    case Initiator => Some(Range(1, 3))
    case HandoverType => Some(Range(1, 4))
    case CauseRadioNetwork => Some(Range(1, 52))
    case CauseTransport => Some(Range(1, 2))
    case CauseNas => Some(Range(1, 4))
    case CauseProtocol => Some(Range(1, 7))
    case CauseMisc => Some(Range(1, 6))
    case _ => None
  }

  /** UTF8String sizes, in characters. */
  function TextSize(t: GoType.Name): Option<Range> {
    match t
    case LCSCorrelationID => Some(Range(1, 255))
    case NID => Some(Range(11, 11))
    case _ => None
  }

  /** NumericString sizes, in characters. */
  function NumericSize(t: GoType.Name): Option<Range> {
    match t
    case MCC => Some(Range(3, 3))
    case MNC => Some(Range(2, 3))
    case _ => None
  }

  /** Enumerations for which zero is wrong wherever they appear. */
  predicate MandatoryEnum(t: GoType.Name) {
    t.HandoverType? || t.CauseRadioNetwork? || t.CauseTransport? || t.CauseNas? || t.CauseProtocol? || t.CauseMisc?
    || t.AMFDirection? || t.AMFRegistrationResult? || t.AMFFailedProcedureType? || t.SMFFailedProcedureType?
    || t.PDUSessionType? || t.Initiator?
  }

  /** Enumerated members for which zero is wrong in this record. */
  predicate MandatoryEnumField(record: GoType.Name, field: GoField.Name) {
    || (record.AMFDeregistration? && field.AccessType?)
    || (record.SMFPDUSessionEstablishment? && field.RequestType?)
    || (record.SMFPDUSessionModification? && field.RequestType?)
    || (record.SMFStartOfInterceptionWithEstablishedPDUSession? && field.RequestType?)
    || (record.AMFRegistration? && field.RegistrationType?)
  }

  // ---------------------------------------------------------------------- characters

  predicate Continues(b: Bytes, i: nat) {
    i < |b| && 0x80 <= b[i] <= 0xBF
  }

  /** How many octets the first character takes, as Go decodes UTF-8: one for anything invalid. */
  function RuneWidth(b: Bytes): (n: nat)
    requires b != []
    ensures 0 < n <= |b|
  {
    var x := b[0];
    if 0xC2 <= x <= 0xDF && Continues(b, 1) then 2
    else if 0xE0 <= x <= 0xEF && Continues(b, 1) && Continues(b, 2)
      && (x == 0xE0 ==> b[1] >= 0xA0) && (x == 0xED ==> b[1] <= 0x9F) then 3
    else if 0xF0 <= x <= 0xF4 && Continues(b, 1) && Continues(b, 2) && Continues(b, 3)
      && (x == 0xF0 ==> b[1] >= 0x90) && (x == 0xF4 ==> b[1] <= 0x8F) then 4
    else 1
  }

  function RuneCount(b: Bytes): nat {
    if b == [] then 0 else 1 + RuneCount(b[RuneWidth(b)..])
  }

  /** Every character is a digit or a space, each of which is one octet. */
  predicate Numeric(b: Bytes) {
    forall i :: 0 <= i < |b| ==> 0x30 <= b[i] <= 0x39 || b[i] == 0x20
  }

  // --------------------------------------------------------------------------- the walk

  /** What constraintOf asks of one value. */
  predicate Meets(ty: Ty, v: Val, zeroForbidden: bool)
    requires WellTyped(ty, v)
  {
    match ty
    case TOctets(t) =>
      var n := if v.octets.None? then 0 else |v.octets.value|;
      OctetSize(t).Some? && n != 0 ==> Within(n, OctetSize(t).value)
    case TInt(t) =>
      && (IntRange(t).Some? ==> Within(v.n, IntRange(t).value))
      && (EnumRange(t).Some? && !(v.n == 0 && !MandatoryEnum(t) && !zeroForbidden) ==> Within(v.n, EnumRange(t).value))
    case TText(t) =>
      && (NumericSize(t).Some? && v.text != [] ==> Within(RuneCount(v.text), NumericSize(t).value) && Numeric(v.text))
      && (TextSize(t).Some? && v.text != [] ==> Within(RuneCount(v.text), TextSize(t).value))
    case _ => true
  }

  datatype Hop = Deref | Member(index: nat) | Element(place: nat)

  type Path = seq<Hop>

  function Under(hop: Hop, p: Option<Path>): Option<Path> {
    if p.None? then None else Some([hop] + p.value)
  }

  /** The first value found that violates its own restriction. */
  function Walk(ty: Ty, v: Val, zeroForbidden: bool): Option<Path>
    requires WellTyped(ty, v)
    decreases v, 1
  {
    if !Meets(ty, v, zeroForbidden) then Some([])
    else
      match ty
      case TPtr(to) => if v.target.None? then None else Under(Deref, Walk(to, v.target.value, zeroForbidden))
      case TChoice(_, _) =>
        if v.dyn.None? then None else Under(Deref, Walk(v.dyn.value.ty, v.dyn.value.v, zeroForbidden))
      case TStruct(name, fields) => WalkFields(name, fields, v.members, 0)
      case TWrap(name, inner) => Under(Member(0), Walk(inner, v.members[0], false))
      case TList(elem) => if v.NilList? then None else WalkElems(elem, v.elems, 0, zeroForbidden)
      case _ => None
  }

  function WalkFields(name: GoType.Name, fields: seq<Field>, members: seq<Val>, from: nat): Option<Path>
    requires |members| == |fields| && forall i :: 0 <= i < |fields| ==> WellTyped(fields[i].ty, members[i])
    decreases members, 0
  {
    if fields == [] then None
    else
      var p := Walk(fields[0].ty, members[0], MandatoryEnumField(name, fields[0].name));
      if p.Some? then Under(Member(from), p) else WalkFields(name, fields[1..], members[1..], from + 1)
  }

  function WalkElems(elem: Ty, vs: seq<Val>, from: nat, zeroForbidden: bool): Option<Path>
    requires forall i :: 0 <= i < |vs| ==> WellTyped(elem, vs[i])
    decreases vs, 0
  {
    if vs == [] then None
    else
      var p := Walk(elem, vs[0], zeroForbidden);
      if p.Some? then Under(Element(from), p) else WalkElems(elem, vs[1..], from + 1, zeroForbidden)
  }

  // ------------------------------------------------- what the walk reaches, and what it means

  /** A value, its type and whether its member forbids zero. */
  datatype Spot = Spot(ty: Ty, v: Val, zeroForbidden: bool)

  /** One hop through a pointer, an interface, a structure or a list. */
  function Hopped(s: Spot, hop: Hop): Option<Spot>
    requires WellTyped(s.ty, s.v)
  {
    match (s.ty, hop)
    case (TPtr(to), Deref) => if s.v.target.None? then None else Some(Spot(to, s.v.target.value, s.zeroForbidden))
    case (TChoice(_, _), Deref) =>
      if s.v.dyn.None? then None else Some(Spot(s.v.dyn.value.ty, s.v.dyn.value.v, s.zeroForbidden))
    case (TStruct(name, fields), Member(i)) =>
      if i < |fields| then Some(Spot(fields[i].ty, s.v.members[i], MandatoryEnumField(name, fields[i].name))) else None
    case (TWrap(name, inner), Member(i)) => if i == 0 then Some(Spot(inner, s.v.members[0], false)) else None
    case (TList(elem), Element(i)) =>
      if s.v.List? && i < |s.v.elems| then Some(Spot(elem, s.v.elems[i], s.zeroForbidden)) else None
    case _ => None
  }

  /** The value a path leads to. */
  function At(s: Spot, path: Path): Option<Spot>
    requires WellTyped(s.ty, s.v)
    decreases |path|
  {
    if path == [] then Some(s)
    else
      var next := Hopped(s, path[0]);
      if next.None? then None else At(next.value, path[1..])
  }

  lemma {:induction false} AtStep(s: Spot, hop: Hop, rest: Path)
    requires WellTyped(s.ty, s.v) && Hopped(s, hop).Some?
    ensures WellTyped(Hopped(s, hop).value.ty, Hopped(s, hop).value.v)
    ensures At(s, [hop] + rest) == At(Hopped(s, hop).value, rest)
  {
    assert ([hop] + rest)[1..] == rest;
  }

  /** A path to a value that does not meet its restriction. */
  ghost predicate Offends(s: Spot, path: Path)
    requires WellTyped(s.ty, s.v)
  {
    At(s, path).Some? && WellTyped(At(s, path).value.ty, At(s, path).value.v)
    && !Meets(At(s, path).value.ty, At(s, path).value.v, At(s, path).value.zeroForbidden)
  }

  /** A structure's violation is the violation of one of its members. */
  lemma {:induction false} FieldOffender(name: GoType.Name, fields: seq<Field>, members: seq<Val>,
      from: nat) returns (i: nat)
    requires |members| == |fields| && forall i :: 0 <= i < |fields| ==> WellTyped(fields[i].ty, members[i])
    requires WalkFields(name, fields, members, from).Some?
    ensures i < |fields|
    ensures Walk(fields[i].ty, members[i], MandatoryEnumField(name, fields[i].name)).Some?
    ensures WalkFields(name, fields, members, from)
      == Under(Member(from + i), Walk(fields[i].ty, members[i], MandatoryEnumField(name, fields[i].name)))
  {
    i := 0;
    if Walk(fields[0].ty, members[0], MandatoryEnumField(name, fields[0].name)).None? {
      var j := FieldOffender(name, fields[1..], members[1..], from + 1);
      i := j + 1;
    }
  }

  lemma {:induction false} ElemOffender(elem: Ty, vs: seq<Val>, from: nat, zf: bool) returns (i: nat)
    requires (forall i :: 0 <= i < |vs| ==> WellTyped(elem, vs[i])) && WalkElems(elem, vs, from, zf).Some?
    ensures i < |vs| && Walk(elem, vs[i], zf).Some?
    ensures WalkElems(elem, vs, from, zf) == Under(Element(from + i), Walk(elem, vs[i], zf))
  {
    i := 0;
    if Walk(elem, vs[0], zf).None? {
      var j := ElemOffender(elem, vs[1..], from + 1, zf);
      i := j + 1;
    }
  }

  /** One hop towards the value the walk names. */
  lemma {:induction false} WalkHops(s: Spot) returns (hop: Hop)
    requires WellTyped(s.ty, s.v) && Meets(s.ty, s.v, s.zeroForbidden) && Walk(s.ty, s.v, s.zeroForbidden).Some?
    ensures Hopped(s, hop).Some?
    ensures var n := Hopped(s, hop).value;
      WellTyped(n.ty, n.v) && n.v < s.v
        && Walk(s.ty, s.v, s.zeroForbidden) == Under(hop, Walk(n.ty, n.v, n.zeroForbidden))
  {
    match s.ty
    case TStruct(name, fields) =>
      var i := FieldOffender(name, fields, s.v.members, 0);
      hop := Member(i);
    case TWrap(_, _) => hop := Member(0);
    case TList(elem) =>
      var i := ElemOffender(elem, s.v.elems, 0, s.zeroForbidden);
      hop := Element(i);
    case _ => hop := Deref;
  }

  /** What the walk names does violate its restriction. */
  lemma {:induction false} WalkNamesAnOffender(s: Spot)
    requires WellTyped(s.ty, s.v) && Walk(s.ty, s.v, s.zeroForbidden).Some?
    ensures Offends(s, Walk(s.ty, s.v, s.zeroForbidden).value)
    decreases s.v
  {
    if Meets(s.ty, s.v, s.zeroForbidden) {
      var hop := WalkHops(s);
      var n := Hopped(s, hop).value;
      WalkNamesAnOffender(n);
      AtStep(s, hop, Walk(n.ty, n.v, n.zeroForbidden).value);
    }
  }

  /** A walk that passes passes at every value one hop away. */
  lemma {:induction false} HopPasses(s: Spot, hop: Hop)
    requires WellTyped(s.ty, s.v) && Walk(s.ty, s.v, s.zeroForbidden) == None && Hopped(s, hop).Some?
    ensures var n := Hopped(s, hop).value; WellTyped(n.ty, n.v) && Walk(n.ty, n.v, n.zeroForbidden) == None
  {
    match s.ty
    case TStruct(name, fields) => FieldPasses(name, fields, s.v.members, 0, hop.index);
    case TList(elem) => ElemPasses(elem, s.v.elems, 0, s.zeroForbidden, hop.place);
    case _ =>
  }

  lemma {:induction false} FieldPasses(name: GoType.Name, fields: seq<Field>, members: seq<Val>, from: nat, i: nat)
    requires |members| == |fields| && forall i :: 0 <= i < |fields| ==> WellTyped(fields[i].ty, members[i])
    requires WalkFields(name, fields, members, from) == None && i < |fields|
    ensures Walk(fields[i].ty, members[i], MandatoryEnumField(name, fields[i].name)) == None
  {
    if i > 0 {
      FieldPasses(name, fields[1..], members[1..], from + 1, i - 1);
    }
  }

  lemma {:induction false} ElemPasses(elem: Ty, vs: seq<Val>, from: nat, zf: bool, i: nat)
    requires (forall i :: 0 <= i < |vs| ==> WellTyped(elem, vs[i])) && WalkElems(elem, vs, from, zf) == None && i < |vs|
    ensures Walk(elem, vs[i], zf) == None
  {
    if i > 0 {
      ElemPasses(elem, vs[1..], from + 1, zf, i - 1);
    }
  }

  lemma {:induction false} PassMeansMet(s: Spot, path: Path)
    requires WellTyped(s.ty, s.v) && Walk(s.ty, s.v, s.zeroForbidden) == None
    ensures At(s, path).Some? ==>
      var t := At(s, path).value; WellTyped(t.ty, t.v) && Meets(t.ty, t.v, t.zeroForbidden)
    decreases |path|
  {
    if path != [] && Hopped(s, path[0]).Some? {
      HopPasses(s, path[0]);
      PassMeansMet(Hopped(s, path[0]).value, path[1..]);
    }
  }

  /**
   The walk accepts a value exactly when every value reachable in it through structures,
   lists, pointers and CHOICEs meets the restriction of its type.
   */
  lemma {:induction false} WalkPassesIffAllMet(ty: Ty, v: Val, zf: bool)
    requires WellTyped(ty, v)
    ensures Walk(ty, v, zf) == None <==> forall path :: !Offends(Spot(ty, v, zf), path)
  {
    if Walk(ty, v, zf) == None {
      forall path ensures !Offends(Spot(ty, v, zf), path) {
        PassMeansMet(Spot(ty, v, zf), path);
      }
    } else {
      WalkNamesAnOffender(Spot(ty, v, zf));
    }
  }
}
