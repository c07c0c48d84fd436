/** The builder of iri/emit.go: bytes accumulate, the first error sticks, later writes do nothing. */
module XiriBuilder {
  import opened Wrappers
  import opened Der
  import opened Schema
  import Records
  import Xiri
  import GoType

  datatype Contents = Contents(buf: Bytes, err: Option<Error>)

  /**
   What writing these elements, or failing to, makes of a builder: nothing if it had failed,
   the first error if this is it, the elements' encodings otherwise.
   */
  ghost predicate Wrote(before: Contents, r: Result<seq<Tlv>, Error>, after: Contents) {
    if before.err.Some? then after == before
    else if r.Failure? then after.err == Some(r.error)
    else after == Contents(before.buf + EncodeAll(r.value), None)
  }

  lemma {:induction false} WroteBoth(a: Contents, t: Result<Tlv, Error>, b: Contents, ts: Result<seq<Tlv>, Error>,
      c: Contents)
    requires Wrote(a, One(t), b) && Wrote(b, ts, c)
    ensures Wrote(a, Prepend(t, ts), c)
  {
    if a.err.None? && t.Success? && ts.Success? {
      var all := [t.value] + ts.value;
      assert [t.value][1..] == [] && all[1..] == ts.value;
      assert EncodeAll([t.value]) == Encode(t.value);
      assert EncodeAll(all) == Encode(t.value) + EncodeAll(ts.value);
    }
  }

  class Builder {
    var buf: Bytes
    var err: Option<Error>

    ghost function State(): Contents
      reads this
    {
      Contents(buf, err)
    }

    constructor ()
      ensures State() == Contents([], None)
    {
      buf, err := [], None;
    }

    method Fail(e: Error)
      modifies this
      ensures Wrote(old(State()), Failure(e), State()) && buf == old(buf)
    {
      if err.None? {
        err := Some(e);
      }
    }

    method Add(der: Bytes)
      modifies this
      ensures err == old(err) && buf == if err.None? then old(buf) + der else old(buf)
    {
      if err.Some? {
        return;
      }
      buf := buf + der;
    }

    method Primitive(tag: nat, content: Bytes)
      modifies this
      ensures Wrote(old(State()), Success([Prim(Context, tag, content)]), State())
    {
      Add(Element(Context, false, tag, content));
      assert EncodeAll([Prim(Context, tag, content)]) == Encode(Prim(Context, tag, content)) + EncodeAll([]);
    }

    /** Takes over what an inner builder made, or its error. */
    method Wrap(c: Class, tag: nat, inner: Builder, ghost r: Result<seq<Tlv>, Error>)
      requires inner != this && Wrote(Contents([], None), r, inner.State())
      modifies this
      ensures Wrote(old(State()), One(Wrapped(c, tag, r)), State())
      ensures r.Failure? ==> buf == old(buf)
    {
      if err.Some? {
        return;
      }
      if inner.err.Some? {
        err := inner.err;
        return;
      }
      Add(Element(c, true, tag, inner.buf));
      assert EncodeAll([Cons(c, tag, r.value)]) == Encode(Cons(c, tag, r.value)) + EncodeAll([]);
    }
  }

  /** One member under its tag. */
  method EmitInto(b: Builder, place: Place, tag: nat, ty: Ty, v: Val)
    requires WellTyped(ty, v)
    modifies b
    ensures Wrote(old(b.State()), One(Emit(place, tag, ty, v)), b.State())
    decreases v, 2
  {
    if b.err.Some? {
      return;
    }
    match ty
    case TInt(_) => b.Primitive(tag, IntegerOctets(v.n));
    case TBool(_) => b.Primitive(tag, BooleanOctets(v.b));
    case TOctets(_) => b.Primitive(tag, if v.octets.Some? then v.octets.value else []);
    case TText(_) => b.Primitive(tag, v.text);
    case TPtr(to) =>
      if v.target.None? {
        b.Fail(Missing(place));
      } else {
        EmitInto(b, place, tag, to, v.target.value);
      }
    case TStruct(name, fields) =>
      var inner := new Builder();
      EmitFieldsInto(inner, name, fields, v.members);
      b.Wrap(Context, tag, inner, EmitFields(name, fields, v.members));
    case TChoice(name, alts) =>
      var inner := new Builder();
      EmitAltInto(inner, place, name, alts, v);
      b.Wrap(Context, tag, inner, One(EmitAlt(place, name, alts, v)));
    case TWrap(_, inner) => EmitInto(b, ValueOf(place), tag, inner, v.members[0]);
    case TList(elem) =>
      var inner := new Builder();
      if v.List? {
        EmitElemsInto(inner, place, elem, v.elems, 0);
      }
      b.Wrap(Context, tag, inner, if v.NilList? then Success([]) else EmitElems(place, elem, v.elems, 0));
  }

  method EmitFieldsInto(b: Builder, name: GoType.Name, fields: seq<Field>, members: seq<Val>)
    requires |members| == |fields| && forall i :: 0 <= i < |fields| ==> WellTyped(fields[i].ty, members[i])
    modifies b
    ensures Wrote(old(b.State()), EmitFields(name, fields, members), b.State())
    decreases members, 0
  {
    if fields == [] {
      return;
    }
    if Omitted(fields[0], members[0]) {
      EmitFieldsInto(b, name, fields[1..], members[1..]);
      return;
    }
    ghost var before := b.State();
    EmitInto(b, FieldOf(name, fields[0].name), fields[0].tag, fields[0].ty, members[0]);
    ghost var between := b.State();
    EmitFieldsInto(b, name, fields[1..], members[1..]);
    WroteBoth(before, Emit(FieldOf(name, fields[0].name), fields[0].tag, fields[0].ty, members[0]), between,
      EmitFields(name, fields[1..], members[1..]), b.State());
  }

  method EmitAltInto(b: Builder, place: Place, choice: GoType.Name, alts: seq<Alt>, v: Val)
    requires v.Iface? && (v.dyn.Some? ==> WellTyped(v.dyn.value.ty, v.dyn.value.v))
    modifies b
    ensures Wrote(old(b.State()), One(EmitAlt(place, choice, alts, v)), b.State())
    decreases v, 1
  {
    if v.dyn.None? {
      b.Fail(Missing(place));
      return;
    }
    var k := FindAlt(alts, v.dyn.value.ty);
    if k.None? {
      b.Fail(NotAnAlternative(choice, place));
    } else {
      EmitInto(b, place, alts[k.value].tag, v.dyn.value.ty, v.dyn.value.v);
    }
  }

  method EmitElemInto(b: Builder, place: Place, elem: Ty, v: Val)
    requires WellTyped(elem, v)
    modifies b
    ensures Wrote(old(b.State()), One(EmitElem(place, elem, v)), b.State())
    decreases v, 3
  {
    match elem
    case TChoice(name, alts) => EmitAltInto(b, place, name, alts, v);
    case TStruct(name, fields) =>
      var inner := new Builder();
      EmitFieldsInto(inner, name, fields, v.members);
      b.Wrap(Universal, 16, inner, EmitFields(name, fields, v.members));
    case _ => b.Fail(NotAnAlternative(GoType.Bytes, place));
  }

  method EmitElemsInto(b: Builder, place: Place, elem: Ty, vs: seq<Val>, from: nat)
    requires forall i :: 0 <= i < |vs| ==> WellTyped(elem, vs[i])
    modifies b
    ensures Wrote(old(b.State()), EmitElems(place, elem, vs, from), b.State())
    decreases vs, 0
  {
    if vs == [] {
      return;
    }
    ghost var before := b.State();
    EmitElemInto(b, ElementOf(place, from), elem, vs[0]);
    ghost var between := b.State();
    EmitElemsInto(b, place, elem, vs[1..], from + 1);
    WroteBoth(before, EmitElem(ElementOf(place, from), elem, vs[0]), between,
      EmitElems(place, elem, vs[1..], from + 1), b.State());
  }

  /** encodePayload: the whole payload, or the first error and no bytes. */
  method EncodePayload(event: Xiri.Event) returns (bytes: Bytes, err: Option<Error>)
    requires Xiri.EventTyped(event)
    ensures err.None? ==> Xiri.EncodePayload(event) == Success(bytes)
    ensures err.Some? ==> Xiri.EncodePayload(event) == Failure(err.value) && bytes == []
  {
    Xiri.PayloadTyped(event);
    var b := new Builder();
    var inner := new Builder();
    EmitFieldsInto(inner, GoType.XIRIPayload, Records.PayloadFields, Xiri.PayloadMembers(event));
    ghost var r := EmitFields(GoType.XIRIPayload, Records.PayloadFields, Xiri.PayloadMembers(event));
    b.Wrap(Universal, 16, inner, r);
    bytes, err := b.buf, b.err;
    if r.Success? {
      var t := Cons(Universal, 16, r.value);
      assert EncodeAll([t]) == Encode(t) + EncodeAll([]);
      assert [] + (Encode(t) + []) == Encode(t);
    }
  }
}
