/**
 EncodeXIRI of iri/iri.go: the endpoint-list checks, the constraint walk and the encoding of
 the payload, and what a reader of the payload recovers.
 */
module Xiri {
  import opened Wrappers
  import opened Der
  import opened Schema
  import opened SchemaProperties
  import opened Constraints
  import Records
  import GoType
  import GoField

  // --------------------------------------------------------------------------- encoding

  const PAYLOAD_OID: Bytes := [0x04, 0x13, 0x12, 0x0F, 0x01]

  /** What the caller hands over: an interface value, nil or a typed record. */
  type Event = Option<Dyn>

  predicate EventTyped(event: Event) {
    event.Some? ==> WellTyped(event.value.ty, event.value.v)
  }

  function PayloadMembers(event: Event): seq<Val> {
    [Octets(Some(PAYLOAD_OID)), Iface(event)]
  }

  lemma {:induction false} PayloadTyped(event: Event)
    requires EventTyped(event)
    ensures |PayloadMembers(event)| == |Records.PayloadFields|
    ensures forall i :: 0 <= i < 2 ==> WellTyped(Records.PayloadFields[i].ty, PayloadMembers(event)[i])
  {
    assert Records.PayloadFields[1].ty.TChoice?;
  }

  function PayloadElement(event: Event): Result<Tlv, Error>
    requires EventTyped(event)
  {
    PayloadTyped(event);
    Wrapped(Universal, 16, EmitFields(GoType.XIRIPayload, Records.PayloadFields, PayloadMembers(event)))
  }

  function EncodePayload(event: Event): Result<Bytes, Error>
    requires EventTyped(event)
  {
    match PayloadElement(event)
    case Success(t) => Success(Encode(t))
    case Failure(e) => Failure(e)
  }

  /** The reader: one element, nothing after it, its members by tag. */
  function DecodePayload(b: Bytes): Option<Val> {
    var p := Parse(b);
    if p.None? || p.value.used != |b| then None
    else
      var t := p.value.element;
      if t.Cons? && t.class_ == Universal && t.tag == 16 then Members(ReadFields(Records.PayloadFields, t.children))
      else None
  }

  /** The event a payload carries, if it is a payload. */
  function DecodedEvent(b: Bytes): Option<Dyn> {
    var v := DecodePayload(b);
    if v.Some? && v.value.Struct? && |v.value.members| == 2 && v.value.members[1].Iface? then v.value.members[1].dyn
    else None
  }

  datatype Outcome =
    | Panicked                       // reflect.TypeOf(nil) has no String
    | EndpointsRefused
    | ConstraintRefused(path: Path)
    | EncodingRefused(error: Error)
    | Encoded(bytes: Bytes)

  /** Where both session records keep their endpoint list. */
  const ENDPOINT_MEMBER := 8

  /** validateEvent: the mandatory list may not be empty, the optional one not present and empty. */
  predicate EndpointsAcceptable(d: Dyn)
    requires WellTyped(d.ty, d.v)
  {
    if d.ty == Records.SMFStartOfInterceptionWithEstablishedPDUSession then
      var list := d.v.members[ENDPOINT_MEMBER];
      list.List? && list.elems != []
    else if d.ty == Records.SMFPDUSessionEstablishment then
      var list := d.v.members[ENDPOINT_MEMBER];
      list.List? ==> list.elems != []
    else true
  }

  function EncodeXiri(event: Event): Outcome
    requires EventTyped(event)
  {
    if event.None? then Panicked
    else if !EndpointsAcceptable(event.value) then EndpointsRefused
    else
      match Walk(event.value.ty, event.value.v, false)
      case Some(path) => ConstraintRefused(path)
      case None =>
        match EncodePayload(event)
        case Failure(e) => EncodingRefused(e)
        case Success(bytes) => Encoded(bytes)
  }

  // -------------------------------------------------------------------- reading it back

  /**
   A successful encoding is one element with nothing after it, and reading it back by tag
   gives the event's kind and its canonical form.
   */
  lemma {:induction false} PayloadReadsBack(event: Event)
    requires EventTyped(event) && EncodePayload(event).Success? && |EncodePayload(event).value| < MAX_LENGTH
    ensures event.Some?
    ensures var b := EncodePayload(event).value; Parse(b) == Some(Parsed(PayloadElement(event).value, |b|))
    ensures DecodedEvent(EncodePayload(event).value)
      == Some(Dyn(event.value.ty, Canon(event.value.ty, event.value.v)))
  {
    PayloadTyped(event);
    var t := PayloadElement(event).value;
    var b := Encode(t);
    ParseReads(t, []);
    assert b + [] == b;
    Records.PayloadWellFormed();
    FieldsReadBack(GoType.XIRIPayload, Records.PayloadFields, PayloadMembers(event));
    PayloadNeedsEvent(event);
    CanonPayload(event);
  }

  lemma {:induction false} PayloadNeedsEvent(event: Event)
    requires EventTyped(event) && EncodePayload(event).Success?
    ensures event.Some?
  {
    PayloadTyped(event);
    var fields, members := Records.PayloadFields, PayloadMembers(event);
    assert !Omitted(fields[0], members[0]) && !Omitted(fields[1..][0], members[1..][0]);
    assert EmitFields(GoType.XIRIPayload, fields[1..], members[1..]).Success?;
  }

  lemma {:induction false} CanonPayload(event: Event)
    requires EventTyped(event) && event.Some?
    ensures |PayloadMembers(event)| == |Records.PayloadFields|
    ensures forall i :: 0 <= i < 2 ==> WellTyped(Records.PayloadFields[i].ty, PayloadMembers(event)[i])
    ensures CanonFields(Records.PayloadFields, PayloadMembers(event))
      == [Octets(Some(PAYLOAD_OID)), Iface(Some(Dyn(event.value.ty, Canon(event.value.ty, event.value.v))))]
  {
    PayloadTyped(event);
    var fields, members := Records.PayloadFields, PayloadMembers(event);
    assert fields[1..][1..] == [] && members[1..][1..] == [];
    assert CanonFields(fields[1..], members[1..]) == [Canon(fields[1].ty, members[1])] + [];
  }

  /** Two events that encode alike are the same event up to their canonical form. */
  lemma {:induction false} EncodingIsInjective(a: Event, b: Event)
    requires EventTyped(a) && EventTyped(b) && EncodePayload(a).Success?
    requires EncodePayload(a) == EncodePayload(b) && |EncodePayload(a).value| < MAX_LENGTH
    ensures a.Some? && b.Some? && a.value.ty == b.value.ty
    ensures Canon(a.value.ty, a.value.v) == Canon(b.value.ty, b.value.v)
  {
    PayloadReadsBack(a);
    PayloadReadsBack(b);
  }

  // ------------------------------------------------------------------------ first error

  /** A structure's refusal is that of the first member that cannot be written. */
  lemma {:induction false} FirstErrorWins(name: GoType.Name, fields: seq<Field>, members: seq<Val>) returns (i: nat)
    requires |members| == |fields| && forall i :: 0 <= i < |fields| ==> WellTyped(fields[i].ty, members[i])
    requires EmitFields(name, fields, members).Failure?
    ensures i < |fields| && !Omitted(fields[i], members[i])
    ensures Emit(FieldOf(name, fields[i].name), fields[i].tag, fields[i].ty, members[i])
      == Failure(EmitFields(name, fields, members).error)
    ensures forall j :: 0 <= j < i ==>
      (Omitted(fields[j], members[j]) || Emit(FieldOf(name, fields[j].name), fields[j].tag, fields[j].ty,
        members[j]).Success?)
  {
    if Omitted(fields[0], members[0]) || Emit(FieldOf(name, fields[0].name), fields[0].tag, fields[0].ty,
      members[0]).Success? {
      var k := FirstErrorWins(name, fields[1..], members[1..]);
      i := k + 1;
      forall j | 0 <= j < i
        ensures Omitted(fields[j], members[j])
          || Emit(FieldOf(name, fields[j].name), fields[j].tag, fields[j].ty, members[j]).Success?
      {
        if j > 0 {
          assert fields[j] == fields[1..][j - 1] && members[j] == members[1..][j - 1];
        }
      }
    } else {
      i := 0;
    }
  }

  // ------------------------------------------- the decoded record meets its constraints

  lemma {:induction false} ZeroTyped(ty: Ty)
    ensures WellTyped(ty, Zero(ty))
    decreases ty
  {
    match ty
    case TStruct(_, fields) =>
      forall i | 0 <= i < |fields| ensures WellTyped(fields[i].ty, Zero(ty).members[i]) {
        ZeroTyped(fields[i].ty);
      }
    case TWrap(_, inner) => ZeroTyped(inner);
    case _ =>
  }

  lemma {:induction false} CanonFieldsAt(fields: seq<Field>, members: seq<Val>)
    requires |members| == |fields| && forall i :: 0 <= i < |fields| ==> WellTyped(fields[i].ty, members[i])
    ensures |CanonFields(fields, members)| == |fields|
    ensures forall i :: 0 <= i < |fields| ==> CanonFields(fields, members)[i] == CanonField(fields[i], members[i])
  {
    if fields != [] {
      CanonFieldsAt(fields[1..], members[1..]);
      forall i | 0 < i < |fields| ensures CanonFields(fields, members)[i] == CanonField(fields[i], members[i]) {
        assert CanonFields(fields, members)[i] == CanonFields(fields[1..], members[1..])[i - 1];
      }
    }
  }

  lemma {:induction false} CanonElemsAt(elem: Ty, vs: seq<Val>)
    requires forall i :: 0 <= i < |vs| ==> WellTyped(elem, vs[i])
    ensures |CanonElems(elem, vs)| == |vs|
    ensures forall i :: 0 <= i < |vs| ==> CanonElems(elem, vs)[i] == Canon(elem, vs[i])
  {
    if vs != [] {
      CanonElemsAt(elem, vs[1..]);
    }
  }

  lemma {:induction false} CanonTyped(ty: Ty, v: Val)
    requires WellTyped(ty, v)
    ensures WellTyped(ty, Canon(ty, v))
    decreases v
  {
    match ty
    case TPtr(to) =>
      if v.target.Some? {
        CanonTyped(to, v.target.value);
      }
    case TStruct(_, fields) =>
      CanonFieldsAt(fields, v.members);
      forall i | 0 <= i < |fields| ensures WellTyped(fields[i].ty, CanonField(fields[i], v.members[i])) {
        ZeroTyped(fields[i].ty);
        CanonTyped(fields[i].ty, v.members[i]);
      }
    case TChoice(_, _) =>
      if v.dyn.Some? {
        CanonTyped(v.dyn.value.ty, v.dyn.value.v);
      }
    case TWrap(_, inner) => CanonTyped(inner, v.members[0]);
    case TList(elem) =>
      if v.List? {
        CanonElemsAt(elem, v.elems);
        forall i | 0 <= i < |v.elems| ensures WellTyped(elem, Canon(elem, v.elems[i])) {
          CanonTyped(elem, v.elems[i]);
        }
      }
    case _ =>
  }

  lemma {:induction false} WalkFieldsPasses(name: GoType.Name, fields: seq<Field>, members: seq<Val>, from: nat)
    requires |members| == |fields| && forall i :: 0 <= i < |fields| ==> WellTyped(fields[i].ty, members[i])
    requires forall i :: 0 <= i < |fields| ==>
      Walk(fields[i].ty, members[i], MandatoryEnumField(name, fields[i].name)) == None
    ensures WalkFields(name, fields, members, from) == None
  {
    if fields != [] {
      WalkFieldsPasses(name, fields[1..], members[1..], from + 1);
    }
  }

  lemma {:induction false} WalkElemsPasses(elem: Ty, vs: seq<Val>, from: nat, zf: bool)
    requires forall i :: 0 <= i < |vs| ==> WellTyped(elem, vs[i]) && Walk(elem, vs[i], zf) == None
    ensures WalkElems(elem, vs, from, zf) == None
  {
    if vs != [] {
      WalkElemsPasses(elem, vs[1..], from + 1, zf);
    }
  }

  lemma {:induction false} CanonFieldPasses(f: Field, v: Val, zf: bool)
    requires WellTyped(f.ty, v) && Walk(f.ty, v, zf) == None
    ensures WellTyped(f.ty, CanonField(f, v)) && Walk(f.ty, CanonField(f, v), zf) == None
    decreases v, 1
  {
    ZeroTyped(f.ty);
    CanonTyped(f.ty, v);
    if !Omitted(f, v) {
      CanonPasses(f.ty, v, zf);
    } else if !f.ty.TChoice? {
      OmittedReadsAsItWas(f, v);
    }
  }

  /** The canonical form of a value that passes the walk passes it too. */
  lemma {:induction false} CanonPasses(ty: Ty, v: Val, zf: bool)
    requires WellTyped(ty, v) && Walk(ty, v, zf) == None
    ensures WellTyped(ty, Canon(ty, v)) && Walk(ty, Canon(ty, v), zf) == None
    decreases v, 0
  {
    CanonTyped(ty, v);
    match ty
    case TPtr(to) =>
      if v.target.Some? {
        CanonPasses(to, v.target.value, zf);
      }
    case TStruct(name, fields) => CanonStructPasses(name, fields, v);
    case TChoice(_, _) =>
      if v.dyn.Some? {
        CanonPasses(v.dyn.value.ty, v.dyn.value.v, zf);
      }
    case TWrap(_, inner) => CanonPasses(inner, v.members[0], false);
    case TList(elem) =>
      if v.List? {
        CanonElemsAt(elem, v.elems);
        forall i | 0 <= i < |v.elems|
          ensures WellTyped(elem, Canon(elem, v.elems[i])) && Walk(elem, Canon(elem, v.elems[i]), zf) == None
        {
          ElemPasses(elem, v.elems, 0, zf, i);
          CanonPasses(elem, v.elems[i], zf);
        }
        WalkElemsPasses(elem, CanonElems(elem, v.elems), 0, zf);
      }
    case _ =>
  }

  lemma {:induction false} CanonStructPasses(name: GoType.Name, fields: seq<Field>, v: Val)
    requires v.Struct? && |v.members| == |fields|
    requires forall i :: 0 <= i < |fields| ==> WellTyped(fields[i].ty, v.members[i])
    requires WalkFields(name, fields, v.members, 0) == None
    ensures |CanonFields(fields, v.members)| == |fields|
    ensures forall i :: 0 <= i < |fields| ==> WellTyped(fields[i].ty, CanonFields(fields, v.members)[i])
    ensures WalkFields(name, fields, CanonFields(fields, v.members), 0) == None
    decreases v, 0, 0
  {
    CanonFieldsAt(fields, v.members);
    var canon := CanonFields(fields, v.members);
    forall i | 0 <= i < |fields|
      ensures WellTyped(fields[i].ty, canon[i])
        && Walk(fields[i].ty, canon[i], MandatoryEnumField(name, fields[i].name)) == None
    {
      FieldPasses(name, fields, v.members, 0, i);
      CanonFieldPasses(fields[i], v.members[i], MandatoryEnumField(name, fields[i].name));
    }
    WalkFieldsPasses(name, fields, canon, 0);
  }

  // ---------------------------------------------------------------------- main results

  /**
   EncodeXIRI succeeds only on a record whose reachable values all meet their restrictions;
   what it delivers is read back as that record's canonical form, which meets them too.
   */
  lemma {:induction false} EncodedRecordsAreSound(event: Event)
    requires EventTyped(event) && EncodeXiri(event).Encoded? && |EncodeXiri(event).bytes| < MAX_LENGTH
    ensures event.Some?
    ensures forall path :: !Offends(Spot(event.value.ty, event.value.v, false), path)
    ensures DecodedEvent(EncodeXiri(event).bytes) == Some(Dyn(event.value.ty, Canon(event.value.ty, event.value.v)))
    ensures WellTyped(event.value.ty, Canon(event.value.ty, event.value.v))
    ensures forall path :: !Offends(Spot(event.value.ty, Canon(event.value.ty, event.value.v), false), path)
  {
    var d := event.value;
    PayloadReadsBack(event);
    WalkPassesIffAllMet(d.ty, d.v, false);
    CanonPasses(d.ty, d.v, false);
    WalkPassesIffAllMet(d.ty, Canon(d.ty, d.v), false);
  }

  /** Enumerated values guarded by type or by member. */
  predicate Guarded(s: Spot) {
    s.ty.TInt? && EnumRange(s.ty.name).Some? && (MandatoryEnum(s.ty.name) || s.zeroForbidden)
  }

  /** Every guarded enumerated value in what is read back is in its range. */
  lemma {:induction false} GuardedEnumsDecodeInRange(event: Event, path: Path)
    requires EventTyped(event) && EncodeXiri(event).Encoded? && |EncodeXiri(event).bytes| < MAX_LENGTH
    ensures DecodedEvent(EncodeXiri(event).bytes).Some?
    ensures var d := DecodedEvent(EncodeXiri(event).bytes).value;
      && WellTyped(d.ty, d.v)
      && (At(Spot(d.ty, d.v, false), path).Some? && Guarded(At(Spot(d.ty, d.v, false), path).value) ==>
            var s := At(Spot(d.ty, d.v, false), path).value; s.v.Int? && Within(s.v.n, EnumRange(s.ty.name).value))
  {
    EncodedRecordsAreSound(event);
    var d := DecodedEvent(EncodeXiri(event).bytes).value;
    CanonPasses(event.value.ty, event.value.v, false);
    PassMeansMet(Spot(d.ty, d.v, false), path);
  }

  /**
   Exactly when EncodeXIRI delivers: one of the 17 records, acceptable endpoints, every
   reachable restriction met, and every written CHOICE holding one of its alternatives.
   */
  lemma {:induction false} EncodesExactlyWhen(event: Event)
    requires EventTyped(event)
    ensures EncodeXiri(event).Encoded? <==>
      && event.Some? && EndpointsAcceptable(event.value)
      && (forall path :: !Offends(Spot(event.value.ty, event.value.v, false), path))
      && FindAlt(Records.XIRIEvent.alts, event.value.ty).Some? && Writable(event.value.ty, event.value.v)
    ensures EncodeXiri(event).Panicked? <==> event.None?
  {
    if event.Some? {
      WalkPassesIffAllMet(event.value.ty, event.value.v, false);
      PayloadWritable(event);
    }
  }

  lemma {:induction false} PayloadWritable(event: Event)
    requires EventTyped(event)
    ensures EncodePayload(event).Success? <==>
      event.Some? && FindAlt(Records.XIRIEvent.alts, event.value.ty).Some? && Writable(event.value.ty, event.value.v)
  {
    PayloadTyped(event);
    var fields, members := Records.PayloadFields, PayloadMembers(event);
    FieldsWritable(GoType.XIRIPayload, fields, members);
    assert !Omitted(fields[0], members[0]) && !Omitted(fields[1], members[1]);
    assert Writable(fields[1].ty, members[1]) <==>
      event.Some? && FindAlt(Records.XIRIEvent.alts, event.value.ty).Some? && Writable(event.value.ty, event.value.v);
    assert EmitFields(GoType.XIRIPayload, fields, members).Success? <==>
      Writable(fields[0].ty, members[0]) && Writable(fields[1].ty, members[1]);
  }

  // ------------------------------------------------------- lists nothing looks at

  lemma {:induction false} WalkFieldsReplaced(name: GoType.Name, fields: seq<Field>, members: seq<Val>, from: nat,
      k: nat, v: Val)
    requires |members| == |fields| && forall i :: 0 <= i < |fields| ==> WellTyped(fields[i].ty, members[i])
    requires k < |fields| && WellTyped(fields[k].ty, v) && WalkFields(name, fields, members, from).None?
    requires Walk(fields[k].ty, v, MandatoryEnumField(name, fields[k].name)).None?
    ensures WalkFields(name, fields, members[k := v], from).None?
  {
    if k == 0 {
      assert members[k := v][1..] == members[1..];
    } else {
      WalkFieldsReplaced(name, fields[1..], members[1..], from + 1, k - 1, v);
      assert members[k := v][1..] == members[1..][k - 1 := v];
    }
  }

  /** The record with a present list of no elements for that member. */
  function WithEmptyList(d: Dyn, k: nat): Dyn
    requires d.v.Struct? && k < |d.v.members|
  {
    Dyn(d.ty, Struct(d.v.members[k := List([])]))
  }

  lemma {:induction false} EmptyListIsWritable(d: Dyn, fields: seq<Field>, k: nat)
    requires d.ty.TStruct? && d.ty.fields == fields && WellTyped(d.ty, d.v)
    requires k < |fields| && fields[k].ty.TList? && Writable(d.ty, d.v)
    ensures WellTyped(d.ty, WithEmptyList(d, k).v) && Writable(d.ty, WithEmptyList(d, k).v)
  {
    var e := WithEmptyList(d, k);
    assert WellTyped(e.ty, e.v);
    forall i | 0 <= i < |fields|
      ensures Omitted(fields[i], e.v.members[i]) || Writable(fields[i].ty, e.v.members[i])
    {
      assert i != k ==> e.v.members[i] == d.v.members[i];
    }
  }

  /** No list of a record other than the two guarded ones is refused for being present and empty. */
  lemma {:induction false} EmptyListIsEncoded(d: Dyn, fields: seq<Field>, k: nat)
    requires d.ty.TStruct? && d.ty.fields == fields && WellTyped(d.ty, d.v)
    requires d.ty != Records.SMFStartOfInterceptionWithEstablishedPDUSession
    requires d.ty != Records.SMFPDUSessionEstablishment
    requires k < |fields| && fields[k].ty.TList? && EncodeXiri(Some(d)).Encoded?
    ensures EventTyped(Some(WithEmptyList(d, k))) && EncodeXiri(Some(WithEmptyList(d, k))).Encoded?
    ensures !Omitted(fields[k], List([]))
  {
    var e := WithEmptyList(d, k);
    PayloadWritable(Some(d));
    EmptyListIsWritable(d, fields, k);
    PayloadWritable(Some(e));
    WalkFieldsReplaced(d.ty.name, fields, d.v.members, 0, k, List([]));
    assert Walk(e.ty, e.v, false).None?;
  }

  const MODIFICATION_ENDPOINTS := 9
  const UNSUCCESSFUL_ENDPOINTS := 8

  /**
   The other two records with an endpoint list are not guarded: whenever such a record encodes,
   so does the same record with a present list of no endpoints, and the list is written.
   */
  lemma {:induction false} EmptyEndpointsAreEncoded(d: Dyn, k: nat)
    requires WellTyped(d.ty, d.v) && EncodeXiri(Some(d)).Encoded?
    requires (d.ty == Records.SMFPDUSessionModification && k == MODIFICATION_ENDPOINTS)
      || (d.ty == Records.SMFUnsuccessfulProcedure && k == UNSUCCESSFUL_ENDPOINTS)
    ensures d.ty.fields[k].name == GoField.UEEndpoint && d.ty.fields[k].ty == Records.UEEndpoints
    ensures EventTyped(Some(WithEmptyList(d, k))) && EncodeXiri(Some(WithEmptyList(d, k))).Encoded?
    ensures !Omitted(d.ty.fields[k], List([]))
  {
    EmptyListIsEncoded(d, d.ty.fields, k);
  }
}
