/**
 The shapes xIRI records are made of and how iri/emit.go writes each of them: members with a
 tag and a presence rule, CHOICEs held in interface values, lists, pointers, nested
 structures. A record type is a value of Ty, a record a value of Val.
 */
module Schema {
  import opened Wrappers
  import opened Der
  import GoType
  import GoField

  datatype Ty =
    | TInt(name: GoType.Name)
    | TBool(name: GoType.Name)
    | TOctets(name: GoType.Name)
    | TText(name: GoType.Name)
    | TPtr(to: Ty)
    | TStruct(name: GoType.Name, fields: seq<Field>)
    | TChoice(name: GoType.Name, alts: seq<Alt>)     // an interface member restricted to a CHOICE
    | TWrap(name: GoType.Name, inner: Ty)            // a structure whose one member has no tag of its own
    | TList(elem: Ty)

  datatype Field = Field(name: GoField.Name, tag: nat, optional: bool, ty: Ty)

  datatype Alt = Alt(tag: nat, ty: Ty)

  datatype Val =
    | Int(n: int)
    | Bool(b: bool)
    | Octets(octets: Option<Bytes>)             // None is a nil slice
    | Text(text: Bytes)
    | Ptr(target: Option<Val>)
    | Struct(members: seq<Val>)
    | Iface(dyn: Option<Dyn>)                   // None is a nil interface
    | NilList
    | List(elems: seq<Val>)

  /** An interface's dynamic type and value. */
  datatype Dyn = Dyn(ty: Ty, v: Val)

  /** The static typing the source's declarations give. */
  predicate WellTyped(ty: Ty, v: Val)
    decreases v
  {
    match ty
    case TInt(_) => v.Int?
    case TBool(_) => v.Bool?
    case TOctets(_) => v.Octets?
    case TText(_) => v.Text?
    case TPtr(to) => v.Ptr? && (v.target.Some? ==> WellTyped(to, v.target.value))
    case TStruct(_, fields) =>
      v.Struct? && |v.members| == |fields| &&
      forall i :: 0 <= i < |fields| ==> WellTyped(fields[i].ty, v.members[i])
    case TChoice(_, _) => v.Iface? && (v.dyn.Some? ==> WellTyped(v.dyn.value.ty, v.dyn.value.v))
    case TWrap(_, inner) => v.Struct? && |v.members| == 1 && WellTyped(inner, v.members[0])
    case TList(elem) =>
      v.NilList? || (v.List? && forall i :: 0 <= i < |v.elems| ==> WellTyped(elem, v.elems[i]))
  }

  /** reflect.Value.IsZero. */
  predicate IsZero(v: Val)
    decreases v
  {
    match v
    case Int(n) => n == 0
    case Bool(b) => !b
    case Octets(o) => o.None?
    case Text(t) => t == []
    case Ptr(p) => p.None?
    case Struct(members) => forall i :: 0 <= i < |members| ==> IsZero(members[i])
    case Iface(d) => d.None?
    case NilList => true
    case List(_) => false
  }

  function Zero(ty: Ty): Val
    decreases ty
  {
    match ty
    case TInt(_) => Int(0)
    case TBool(_) => Bool(false)
    case TOctets(_) => Octets(None)
    case TText(_) => Text([])
    case TPtr(_) => Ptr(None)
    case TStruct(_, fields) => Struct(seq(|fields|, i requires 0 <= i < |fields| => Zero(fields[i].ty)))
    case TChoice(_, _) => Iface(None)
    case TWrap(_, inner) => Struct([Zero(inner)])
    case TList(_) => NilList
  }

  /** An OPTIONAL member that is not written: at its zero, or a CHOICE holding a zero. */
  predicate Omitted(f: Field, v: Val)
    requires WellTyped(f.ty, v)
  {
    f.optional &&
    if f.ty.TChoice? then v.dyn.None? || IsZero(v.dyn.value.v) else IsZero(v)
  }

  /** How a refusal names the member it is about. */
  datatype Place = FieldOf(record: GoType.Name, field: GoField.Name) | ElementOf(list: Place,
      index: nat) | ValueOf(of: Place)

  datatype Error = Missing(place: Place) | NotAnAlternative(choice: GoType.Name, place: Place)

  function FindAlt(alts: seq<Alt>, ty: Ty): (r: Option<nat>)
    ensures r.Some? ==> r.value < |alts| && alts[r.value].ty == ty
  {
    if alts == [] then None
    else if alts[|alts| - 1].ty == ty then Some(|alts| - 1)
    else FindAlt(alts[..|alts| - 1], ty)
  }

  // ---------------------------------------------------------------------------- writing

  /** A member under its tag. */
  function Emit(place: Place, tag: nat, ty: Ty, v: Val): Result<Tlv, Error>
    requires WellTyped(ty, v)
    decreases v, 2
  {
    match ty
    case TInt(_) => Success(Prim(Context, tag, IntegerOctets(v.n)))
    case TBool(_) => Success(Prim(Context, tag, BooleanOctets(v.b)))
    case TOctets(_) => Success(Prim(Context, tag, if v.octets.Some? then v.octets.value else []))
    case TText(_) => Success(Prim(Context, tag, v.text))
    case TPtr(to) => if v.target.None? then Failure(Missing(place)) else Emit(place, tag, to, v.target.value)
    case TStruct(name, fields) => Wrapped(Context, tag, EmitFields(name, fields, v.members))
    case TChoice(name, alts) => Wrapped(Context, tag, One(EmitAlt(place, name, alts, v)))
    case TWrap(_, inner) => Emit(ValueOf(place), tag, inner, v.members[0])
    case TList(elem) =>
      Wrapped(Context, tag, if v.NilList? then Success([]) else EmitElems(place, elem, v.elems, 0))
  }

  function One(r: Result<Tlv, Error>): Result<seq<Tlv>, Error> {
    match r
    case Success(t) => Success([t])
    case Failure(e) => Failure(e)
  }

  /** The first error sticks and nothing is written. */
  function Wrapped(c: Class, tag: nat, inner: Result<seq<Tlv>, Error>): Result<Tlv, Error> {
    match inner
    case Success(ts) => Success(Cons(c, tag, ts))
    case Failure(e) => Failure(e)
  }

  function Prepend(t: Result<Tlv, Error>, ts: Result<seq<Tlv>, Error>): Result<seq<Tlv>, Error> {
    match t
    case Failure(e) => Failure(e)
    case Success(first) => if ts.Failure? then ts else Success([first] + ts.value)
  }

  function EmitFields(name: GoType.Name, fields: seq<Field>, members: seq<Val>): Result<seq<Tlv>, Error>
    requires |members| == |fields| && forall i :: 0 <= i < |fields| ==> WellTyped(fields[i].ty, members[i])
    decreases members, 0
  {
    if fields == [] then Success([])
    else if Omitted(fields[0], members[0]) then EmitFields(name, fields[1..], members[1..])
    else
      Prepend(Emit(FieldOf(name, fields[0].name), fields[0].tag, fields[0].ty, members[0]),
        EmitFields(name, fields[1..], members[1..]))
  }

  /** The alternative an interface holds, under the alternative's own tag. */
  function EmitAlt(place: Place, choice: GoType.Name, alts: seq<Alt>, v: Val): Result<Tlv, Error>
    requires v.Iface? && (v.dyn.Some? ==> WellTyped(v.dyn.value.ty, v.dyn.value.v))
    decreases v, 1
  {
    if v.dyn.None? then Failure(Missing(place))
    else
      var k := FindAlt(alts, v.dyn.value.ty);
      if k.None? then Failure(NotAnAlternative(choice, place))
      else Emit(place, alts[k.value].tag, v.dyn.value.ty, v.dyn.value.v)
  }

  /** An element of a SEQUENCE OF: an alternative, or a universal SEQUENCE. */
  function EmitElem(place: Place, elem: Ty, v: Val): Result<Tlv, Error>
    requires WellTyped(elem, v)
    decreases v, 3
  {
    match elem
    case TChoice(name, alts) => EmitAlt(place, name, alts, v)
    case TStruct(name, fields) => Wrapped(Universal, 16, EmitFields(name, fields, v.members))
    case _ => Failure(NotAnAlternative(GoType.Bytes, place))
  }

  function EmitElems(place: Place, elem: Ty, vs: seq<Val>, from: nat): Result<seq<Tlv>, Error>
    requires forall i :: 0 <= i < |vs| ==> WellTyped(elem, vs[i])
    decreases vs, 0
  {
    if vs == [] then Success([])
    else Prepend(EmitElem(ElementOf(place, from), elem, vs[0]), EmitElems(place, elem, vs[1..], from + 1))
  }

  // ---------------------------------------------------------------------------- reading

  /** What a value reads back as: absent members at their zero, written slices non-nil. */
  function Canon(ty: Ty, v: Val): Val
    requires WellTyped(ty, v)
    decreases v, 1
  {
    match ty
    case TOctets(_) => if v.octets.None? then Octets(Some([])) else v
    case TPtr(to) => if v.target.None? then v else Ptr(Some(Canon(to, v.target.value)))
    case TStruct(_, fields) => Struct(CanonFields(fields, v.members))
    case TChoice(_, _) =>
      if v.dyn.None? then v else Iface(Some(Dyn(v.dyn.value.ty, Canon(v.dyn.value.ty, v.dyn.value.v))))
    case TWrap(_, inner) => Struct([Canon(inner, v.members[0])])
    case TList(elem) => List(if v.NilList? then [] else CanonElems(elem, v.elems))
    case _ => v
  }

  function CanonField(f: Field, v: Val): Val
    requires WellTyped(f.ty, v)
    decreases v, 2
  {
    if Omitted(f, v) then Zero(f.ty) else Canon(f.ty, v)
  }

  function CanonFields(fields: seq<Field>, members: seq<Val>): seq<Val>
    requires |members| == |fields| && forall i :: 0 <= i < |fields| ==> WellTyped(fields[i].ty, members[i])
    decreases members, 0
  {
    if fields == [] then [] else [CanonField(fields[0], members[0])] + CanonFields(fields[1..], members[1..])
  }

  function CanonElems(elem: Ty, vs: seq<Val>): seq<Val>
    requires forall i :: 0 <= i < |vs| ==> WellTyped(elem, vs[i])
    decreases vs, 0
  {
    if vs == [] then [] else [Canon(elem, vs[0])] + CanonElems(elem, vs[1..])
  }

  function Read(ty: Ty, t: Tlv): Option<Val>
    decreases ty, 0, 0
  {
    match ty
    case TInt(_) => if t.Prim? && t.content != [] then Some(Int(IntegerOf(t.content))) else None
    case TBool(_) => if t.Prim? && |t.content| == 1 then Some(Bool(t.content[0] != 0)) else None
    case TOctets(_) => if t.Prim? then Some(Octets(Some(t.content))) else None
    case TText(_) => if t.Prim? then Some(Text(t.content)) else None
    case TPtr(to) =>
      var target := Read(to, t);
      if target.Some? then Some(Ptr(target)) else None
    case TStruct(_, fields) => if t.Cons? then Members(ReadFields(fields, t.children)) else None
    case TChoice(_, alts) => if t.Cons? && |t.children| == 1 then ReadAlt(alts, t.children[0]) else None
    case TWrap(_, inner) =>
      var member := Read(inner, t);
      if member.Some? then Some(Struct([member.value])) else None
    case TList(elem) =>
      if t.Prim? then None
      else
        var elems := ReadElems(elem, t.children);
        if elems.Some? then Some(List(elems.value)) else None
  }

  function Members(members: Option<seq<Val>>): Option<Val> {
    if members.Some? then Some(Struct(members.value)) else None
  }

  function Both(first: Option<Val>, rest: Option<seq<Val>>): Option<seq<Val>> {
    if first.Some? && rest.Some? then Some([first.value] + rest.value) else None
  }

  /** Members in order of their tags; one that is not there reads as its zero if it may be absent. */
  function ReadFields(fields: seq<Field>, ts: seq<Tlv>): Option<seq<Val>>
    decreases fields, 1, 0
  {
    if fields == [] then (if ts == [] then Some([]) else None)
    else if ts != [] && ts[0].class_ == Context && ts[0].tag == fields[0].tag then
      assert fields[0].ty < fields[0];
      Both(Read(fields[0].ty, ts[0]), ReadFields(fields[1..], ts[1..]))
    else if fields[0].optional then Both(Some(Zero(fields[0].ty)), ReadFields(fields[1..], ts))
    else None
  }

  function ReadAlt(alts: seq<Alt>, t: Tlv): Option<Val>
    decreases alts, 1, 0
  {
    if alts == [] || t.class_ != Context then None
    else
      var alt := alts[0];
      if alt.tag != t.tag then ReadAlt(alts[1..], t)
      else
        assert alt.ty < alt;
        var v := Read(alt.ty, t);
        if v.Some? then Some(Iface(Some(Dyn(alt.ty, v.value)))) else None
  }

  function ReadElem(elem: Ty, t: Tlv): Option<Val>
    decreases elem, 1, 0
  {
    match elem
    case TChoice(_, alts) => ReadAlt(alts, t)
    case TStruct(_, fields) =>
      if t.Cons? && t.class_ == Universal && t.tag == 16 then Members(ReadFields(fields, t.children)) else None
    case _ => None
  }

  function ReadElems(elem: Ty, ts: seq<Tlv>): Option<seq<Val>>
    decreases elem, 2, |ts|
  {
    if ts == [] then Some([]) else Both(ReadElem(elem, ts[0]), ReadElems(elem, ts[1..]))
  }

  // ------------------------------------------------------------------- well-formed types

  predicate Ascending(fields: seq<Field>) {
    forall i, j :: 0 <= i < j < |fields| ==> fields[i].tag < fields[j].tag
  }

  predicate DistinctTags(alts: seq<Alt>) {
    forall i, j :: 0 <= i < j < |alts| ==> alts[i].tag != alts[j].tag
  }

  /** Strictly ascending tags in every SEQUENCE, distinct ones in every CHOICE. */
  predicate WellFormed(ty: Ty)
    decreases ty
  {
    match ty
    case TPtr(to) => WellFormed(to)
    case TStruct(_, fields) => Ascending(fields) && forall i :: 0 <= i < |fields| ==> WellFormed(fields[i].ty)
    case TChoice(_, alts) => DistinctTags(alts) && forall i :: 0 <= i < |alts| ==> WellFormed(alts[i].ty)
    case TWrap(_, inner) => WellFormed(inner)
    case TList(elem) => (elem.TChoice? || elem.TStruct?) && WellFormed(elem)
    case _ => true
  }
}
