/** What is written under a well-formed type reads back as the value's canonical form. */
module SchemaProperties {
  import opened Wrappers
  import opened Der
  import opened Schema
  import GoType

  /** Every element written for these members carries one of their context tags, none below the first. */
  ghost predicate TagsFrom(ts: seq<Tlv>, least: nat) {
    forall k :: 0 <= k < |ts| ==> ts[k].class_ == Context && ts[k].tag >= least
  }

  lemma {:induction false} EmitTags(place: Place, tag: nat, ty: Ty, v: Val)
    requires WellTyped(ty, v) && Emit(place, tag, ty, v).Success?
    ensures Emit(place, tag, ty, v).value.class_ == Context && Emit(place, tag, ty, v).value.tag == tag
    decreases v
  {
    match ty
    case TPtr(to) => EmitTags(place, tag, to, v.target.value);
    case TWrap(_, inner) => EmitTags(ValueOf(place), tag, inner, v.members[0]);
    case _ =>
  }

  lemma {:induction false} FieldTags(name: GoType.Name, fields: seq<Field>, members: seq<Val>, least: nat)
    requires |members| == |fields| && forall i :: 0 <= i < |fields| ==> WellTyped(fields[i].ty, members[i])
    requires Ascending(fields) && forall i :: 0 <= i < |fields| ==> fields[i].tag >= least
    requires EmitFields(name, fields, members).Success?
    ensures TagsFrom(EmitFields(name, fields, members).value, least)
    decreases members
  {
    if fields != [] {
      FieldTags(name, fields[1..], members[1..], least);
      if !Omitted(fields[0], members[0]) {
        EmitTags(FieldOf(name, fields[0].name), fields[0].tag, fields[0].ty, members[0]);
      }
    }
  }

  lemma {:induction false} ReadsBack(place: Place, tag: nat, ty: Ty, v: Val)
    requires WellFormed(ty) && WellTyped(ty, v) && Emit(place, tag, ty, v).Success?
    ensures Read(ty, Emit(place, tag, ty, v).value) == Some(Canon(ty, v))
    decreases v, 2
  {
    match ty
    case TInt(_) => IntegerReads(v.n);
    case TPtr(to) => ReadsBack(place, tag, to, v.target.value);
    case TStruct(name, fields) => FieldsReadBack(name, fields, v.members);
    case TChoice(name, alts) => AltReadsBack(place, name, alts, v);
    case TWrap(_, inner) => ReadsBack(ValueOf(place), tag, inner, v.members[0]);
    case TList(elem) =>
      if v.List? {
        ElemsReadBack(place, elem, v.elems, 0);
      }
    case _ =>
  }

  lemma {:induction false} FieldsReadBack(name: GoType.Name, fields: seq<Field>, members: seq<Val>)
    requires |members| == |fields| && forall i :: 0 <= i < |fields| ==> WellTyped(fields[i].ty, members[i])
    requires Ascending(fields) && forall i :: 0 <= i < |fields| ==> WellFormed(fields[i].ty)
    requires EmitFields(name, fields, members).Success?
    ensures ReadFields(fields, EmitFields(name, fields, members).value) == Some(CanonFields(fields, members))
    decreases members, 0
  {
    if fields != [] {
      var f, rest := fields[0], fields[1..];
      FieldsReadBack(name, rest, members[1..]);
      var after := EmitFields(name, rest, members[1..]).value;
      FieldTags(name, rest, members[1..], f.tag + 1);
      if Omitted(f, members[0]) {
        AbsentFieldReads(fields, after, CanonFields(rest, members[1..]));
      } else {
        var t := Emit(FieldOf(name, f.name), f.tag, f.ty, members[0]).value;
        ReadsBack(FieldOf(name, f.name), f.tag, f.ty, members[0]);
        EmitTags(FieldOf(name, f.name), f.tag, f.ty, members[0]);
        PresentFieldReads(fields, t, after, Canon(f.ty, members[0]), CanonFields(rest, members[1..]));
      }
    }
  }

  lemma {:induction false} PresentFieldReads(fields: seq<Field>, t: Tlv, after: seq<Tlv>, v: Val, rest: seq<Val>)
    requires fields != [] && t.class_ == Context && t.tag == fields[0].tag
    requires Read(fields[0].ty, t) == Some(v) && ReadFields(fields[1..], after) == Some(rest)
    ensures ReadFields(fields, [t] + after) == Some([v] + rest)
  {
    assert ([t] + after)[1..] == after;
  }

  lemma {:induction false} AbsentFieldReads(fields: seq<Field>, after: seq<Tlv>, rest: seq<Val>)
    requires fields != [] && fields[0].optional && TagsFrom(after, fields[0].tag + 1)
    requires ReadFields(fields[1..], after) == Some(rest)
    ensures ReadFields(fields, after) == Some([Zero(fields[0].ty)] + rest)
  {
  }

  lemma {:induction false} ReadAltFinds(alts: seq<Alt>, k: nat, t: Tlv)
    requires DistinctTags(alts) && k < |alts| && t.class_ == Context && t.tag == alts[k].tag
    requires Read(alts[k].ty, t).Some?
    ensures ReadAlt(alts, t) == Some(Iface(Some(Dyn(alts[k].ty, Read(alts[k].ty, t).value))))
    decreases k
  {
    if k > 0 {
      assert alts[0].tag != alts[k].tag;
      ReadAltFinds(alts[1..], k - 1, t);
    }
  }

  lemma {:induction false} AltReadsBack(place: Place, name: GoType.Name, alts: seq<Alt>, v: Val)
    requires v.Iface? && (v.dyn.Some? ==> WellTyped(v.dyn.value.ty, v.dyn.value.v))
    requires DistinctTags(alts) && forall i :: 0 <= i < |alts| ==> WellFormed(alts[i].ty)
    requires EmitAlt(place, name, alts, v).Success?
    ensures ReadAlt(alts, EmitAlt(place, name, alts, v).value)
      == Some(Iface(Some(Dyn(v.dyn.value.ty, Canon(v.dyn.value.ty, v.dyn.value.v)))))
    decreases v, 1
  {
    var d := v.dyn.value;
    var k := FindAlt(alts, d.ty).value;
    assert WellFormed(alts[k].ty);
    ReadsBack(place, alts[k].tag, d.ty, d.v);
    EmitTags(place, alts[k].tag, d.ty, d.v);
    ReadAltFinds(alts, k, EmitAlt(place, name, alts, v).value);
  }

  lemma {:induction false} ElemReadsBack(place: Place, elem: Ty, v: Val)
    requires WellFormed(elem) && WellTyped(elem, v) && EmitElem(place, elem, v).Success?
    ensures ReadElem(elem, EmitElem(place, elem, v).value) == Some(Canon(elem, v))
    decreases v, 3
  {
    match elem
    case TChoice(name, alts) => AltReadsBack(place, name, alts, v);
    case TStruct(name, fields) => FieldsReadBack(name, fields, v.members);
    case _ =>
  }

  lemma {:induction false} ElemsReadBack(place: Place, elem: Ty, vs: seq<Val>, from: nat)
    requires WellFormed(elem) && forall i :: 0 <= i < |vs| ==> WellTyped(elem, vs[i])
    requires EmitElems(place, elem, vs, from).Success?
    ensures ReadElems(elem, EmitElems(place, elem, vs, from).value) == Some(CanonElems(elem, vs))
    decreases vs, 0
  {
    if vs != [] {
      ElemReadsBack(ElementOf(place, from), elem, vs[0]);
      ElemsReadBack(place, elem, vs[1..], from + 1);
      var first := EmitElem(ElementOf(place, from), elem, vs[0]).value;
      var rest := EmitElems(place, elem, vs[1..], from + 1).value;
      assert ([first] + rest)[1..] == rest;
    }
  }

  // --------------------------------------------------------------------- zero values

  /** An absent member other than a CHOICE reads back exactly as it was. */
  lemma {:induction false} OmittedReadsAsItWas(f: Field, v: Val)
    requires WellTyped(f.ty, v) && Omitted(f, v) && !f.ty.TChoice?
    ensures CanonField(f, v) == v
  {
    ZeroExactlyWhen(f.ty, v);
  }

  // ------------------------------------------------------------- what can be written

  /** Every CHOICE that is written holds one of its alternatives. */
  predicate Writable(ty: Ty, v: Val)
    requires WellTyped(ty, v)
    decreases v
  {
    match ty
    case TPtr(to) => v.target.Some? && Writable(to, v.target.value)
    case TStruct(_, fields) =>
      forall i :: 0 <= i < |fields| ==> Omitted(fields[i], v.members[i]) || Writable(fields[i].ty, v.members[i])
    case TChoice(_, alts) =>
      v.dyn.Some? && FindAlt(alts, v.dyn.value.ty).Some? && Writable(v.dyn.value.ty, v.dyn.value.v)
    case TWrap(_, inner) => Writable(inner, v.members[0])
    case TList(elem) =>
      v.List? ==> forall i :: 0 <= i < |v.elems| ==> (elem.TChoice? || elem.TStruct?) && Writable(elem, v.elems[i])
    case _ => true
  }

  lemma {:induction false} EmitsIffWritable(place: Place, tag: nat, ty: Ty, v: Val)
    requires WellTyped(ty, v)
    ensures Emit(place, tag, ty, v).Success? <==> Writable(ty, v)
    decreases v, 2
  {
    match ty
    case TPtr(to) =>
      if v.target.Some? {
        EmitsIffWritable(place, tag, to, v.target.value);
      }
    case TStruct(name, fields) => FieldsWritable(name, fields, v.members);
    case TChoice(name, alts) => AltWritable(place, name, alts, v);
    case TWrap(_, inner) => EmitsIffWritable(ValueOf(place), tag, inner, v.members[0]);
    case TList(elem) =>
      if v.List? {
        ElemsWritable(place, elem, v.elems, 0);
      }
    case _ =>
  }

  lemma {:induction false} FieldsWritable(name: GoType.Name, fields: seq<Field>, members: seq<Val>)
    requires |members| == |fields| && forall i :: 0 <= i < |fields| ==> WellTyped(fields[i].ty, members[i])
    ensures EmitFields(name, fields, members).Success? <==>
      forall i :: 0 <= i < |fields| ==> Omitted(fields[i], members[i]) || Writable(fields[i].ty, members[i])
    decreases members, 0
  {
    if fields != [] {
      FieldsWritable(name, fields[1..], members[1..]);
      EmitsIffWritable(FieldOf(name, fields[0].name), fields[0].tag, fields[0].ty, members[0]);
      if forall i :: 0 <= i < |fields[1..]| ==>
        Omitted(fields[1..][i], members[1..][i]) || Writable(fields[1..][i].ty, members[1..][i]) {
        forall i | 0 < i < |fields| ensures Omitted(fields[i], members[i]) || Writable(fields[i].ty, members[i]) {
          assert fields[i] == fields[1..][i - 1] && members[i] == members[1..][i - 1];
        }
      }
    }
  }

  lemma {:induction false} AltWritable(place: Place, name: GoType.Name, alts: seq<Alt>, v: Val)
    requires v.Iface? && (v.dyn.Some? ==> WellTyped(v.dyn.value.ty, v.dyn.value.v))
    ensures EmitAlt(place, name, alts, v).Success? <==>
      v.dyn.Some? && FindAlt(alts, v.dyn.value.ty).Some? && Writable(v.dyn.value.ty, v.dyn.value.v)
    decreases v, 1
  {
    if v.dyn.Some? && FindAlt(alts, v.dyn.value.ty).Some? {
      var d := v.dyn.value;
      var r := Emit(place, alts[FindAlt(alts, d.ty).value].tag, d.ty, d.v);
      EmitsIffWritable(place, alts[FindAlt(alts, d.ty).value].tag, d.ty, d.v);
      if r.Success? {
        assert EmitAlt(place, name, alts, v).Success?;
      } else {
        assert EmitAlt(place, name, alts, v).Failure?;
      }
    }
  }

  lemma {:induction false} ElemWritable(place: Place, elem: Ty, v: Val)
    requires WellTyped(elem, v)
    ensures EmitElem(place, elem, v).Success? <==> (elem.TChoice? || elem.TStruct?) && Writable(elem, v)
    decreases v, 3
  {
    match elem
    case TChoice(name, alts) => AltWritable(place, name, alts, v);
    case TStruct(name, fields) => FieldsWritable(name, fields, v.members);
    case _ =>
  }

  lemma {:induction false} ElemsWritable(place: Place, elem: Ty, vs: seq<Val>, from: nat)
    requires forall i :: 0 <= i < |vs| ==> WellTyped(elem, vs[i])
    ensures EmitElems(place, elem, vs, from).Success? <==>
      forall i :: 0 <= i < |vs| ==> (elem.TChoice? || elem.TStruct?) && Writable(elem, vs[i])
    decreases vs, 0
  {
    if vs != [] {
      ElemsWritable(place, elem, vs[1..], from + 1);
      ElemWritable(ElementOf(place, from), elem, vs[0]);
      if forall i :: 0 <= i < |vs[1..]| ==> (elem.TChoice? || elem.TStruct?) && Writable(elem, vs[1..][i]) {
        forall i | 0 < i < |vs| ensures (elem.TChoice? || elem.TStruct?) && Writable(elem, vs[i]) {
          assert vs[i] == vs[1..][i - 1];
        }
      }
    }
  }

  // ------------------------------------------------------------------- what is left out

  /** A value is zero exactly if it is what its type starts out as. */
  lemma {:induction false} ZeroExactlyWhen(ty: Ty, v: Val)
    requires WellTyped(ty, v)
    ensures IsZero(v) <==> v == Zero(ty)
    decreases v
  {
    match ty
    case TStruct(_, fields) =>
      forall i | 0 <= i < |fields| ensures IsZero(v.members[i]) <==> v.members[i] == Zero(fields[i].ty) {
        ZeroExactlyWhen(fields[i].ty, v.members[i]);
      }
      var zero := Zero(ty);
      if IsZero(v) {
        assert v.members == zero.members;
      }
    case TWrap(_, inner) =>
      ZeroExactlyWhen(inner, v.members[0]);
      assert v.members == [v.members[0]];
    case _ =>
  }

  /**
   A member is left out exactly if it may be and is at its zero, or is a CHOICE that holds none
   of its alternatives or one at its zero.
   */
  lemma {:induction false} OmittedExactlyWhen(f: Field, v: Val)
    requires WellTyped(f.ty, v)
    ensures Omitted(f, v) <==>
      f.optional && (v == Zero(f.ty) || (f.ty.TChoice? && v.dyn.Some? && v.dyn.value.v == Zero(v.dyn.value.ty)))
  {
    ZeroExactlyWhen(f.ty, v);
    if f.ty.TChoice? && v.dyn.Some? {
      ZeroExactlyWhen(v.dyn.value.ty, v.dyn.value.v);
    }
  }

  // ------------------------------------------------------------------ shapes on the wire

  /**
   What each kind of member is on the wire: primitive for the simple types, constructed around its
   members for a structure, around one tagged alternative for a CHOICE, and around one element for
   each of a list's.
   */
  lemma {:induction false} EmittedShape(place: Place, tag: nat, ty: Ty, v: Val)
    requires WellTyped(ty, v) && Emit(place, tag, ty, v).Success?
    ensures var t := Emit(place, tag, ty, v).value;
      && t.class_ == Context && t.tag == tag
      && (ty.TInt? || ty.TBool? || ty.TOctets? || ty.TText? ==> t.Prim?)
      && (ty.TStruct? || ty.TChoice? || ty.TList? ==> t.Cons?)
      && (ty.TChoice? ==>
            && |t.children| == 1 && t.children[0].class_ == Context
            && exists k :: 0 <= k < |ty.alts| && v.dyn.Some? && ty.alts[k] == Alt(t.children[0].tag, v.dyn.value.ty))
      && (ty.TList? ==> |t.children| == if v.List? then |v.elems| else 0)
      && (ty.TList? && ty.elem.TStruct? ==>
            forall i :: 0 <= i < |t.children| ==>
              t.children[i].Cons? && t.children[i].class_ == Universal && t.children[i].tag == 16)
  {
    EmitTags(place, tag, ty, v);
    match ty
    case TChoice(_, alts) =>
      var k := FindAlt(alts, v.dyn.value.ty).value;
      EmitTags(place, alts[k].tag, v.dyn.value.ty, v.dyn.value.v);
    case TList(elem) =>
      if v.List? {
        ElementsEmitted(place, elem, v.elems, 0);
      }
    case _ =>
  }

  lemma {:induction false} ElementsEmitted(place: Place, elem: Ty, vs: seq<Val>, from: nat)
    requires (forall i :: 0 <= i < |vs| ==> WellTyped(elem, vs[i])) && EmitElems(place, elem, vs, from).Success?
    ensures var ts := EmitElems(place, elem, vs, from).value;
      && |ts| == |vs|
      && (elem.TStruct? ==>
            forall i :: 0 <= i < |ts| ==> ts[i].Cons? && ts[i].class_ == Universal && ts[i].tag == 16)
  {
    if vs != [] {
      ElementsEmitted(place, elem, vs[1..], from + 1);
    }
  }
}
