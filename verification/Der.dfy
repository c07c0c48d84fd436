/**
 The X.690 encodings the xIRI encoder takes from encoding/asn1: identifier octets (sections
 8.1.2.2 and 8.1.2.4), definite lengths (8.1.3 and 10.1), INTEGER contents (8.3) and BOOLEAN
 contents (8.2 and 11.1); and a reader of nested tag-length-value elements.
 */
module Der {
  import opened Wrappers
  import opened Octets

  type Bytes = seq<octet>

  // ------------------------------------------------------------------------- numerals

  /** Base 256, most significant first, no leading zero. */
  function Digits(n: nat): Bytes {
    if n == 0 then [] else Digits(n / 256) + [n % 256]
  }

  function Value(b: Bytes): nat {
    if b == [] then 0 else 256 * Value(b[..|b| - 1]) + b[|b| - 1]
  }

  lemma {:induction false} ValueOfDigits(n: nat)
    ensures Value(Digits(n)) == n
  {
    if n > 0 {
      ValueOfDigits(n / 256);
      assert Digits(n)[..|Digits(n)| - 1] == Digits(n / 256);
    }
  }

  function Power(k: nat): nat {
    if k == 0 then 1 else 256 * Power(k - 1)
  }

  lemma {:induction false} DigitsAreFew(n: nat, k: nat)
    requires n < Power(k)
    ensures |Digits(n)| <= k
  {
    if n > 0 {
      DigitsAreFew(n / 256, k - 1);
    }
  }

  // ---------------------------------------------------------------------- INTEGER contents

  /** The shortest two's complement form. */
  function IntegerOctets(n: int): Bytes
    decreases if n < 0 then -n else n
  {
    if -128 <= n <= 127 then [n % 256] else IntegerOctets(n / 256) + [n % 256]
  }

  function IntegerOf(b: Bytes): int
    requires b != []
  {
    if |b| == 1 then (if b[0] < 128 then b[0] else b[0] - 256)
    else 256 * IntegerOf(b[..|b| - 1]) + b[|b| - 1]
  }

  lemma {:induction false} IntegerReads(n: int)
    ensures IntegerOctets(n) != [] && IntegerOf(IntegerOctets(n)) == n
    decreases if n < 0 then -n else n
  {
    if !(-128 <= n <= 127) {
      IntegerReads(n / 256);
      var b := IntegerOctets(n);
      assert b[..|b| - 1] == IntegerOctets(n / 256);
    }
  }

  /** The first nine bits are neither all zero nor all one. */
  predicate Shortest(b: Bytes) {
    |b| < 2 || (!(b[0] == 0 && b[1] < 128) && !(b[0] == 255 && b[1] >= 128))
  }

  /** Section 8.3.2: no shorter encoding of the same integer. */
  lemma {:induction false} IntegerIsShortest(n: int)
    ensures IntegerOctets(n) != [] && Shortest(IntegerOctets(n))
    decreases if n < 0 then -n else n
  {
    if !(-128 <= n <= 127) {
      IntegerIsShortest(n / 256);
      var front := IntegerOctets(n / 256);
      if -128 <= n / 256 <= 127 {
        assert front == [(n / 256) % 256];
      } else {
        assert |front| >= 2 by {
          IntegerReads(n / 256 / 256);
        }
      }
    }
  }

  function BooleanOctets(v: bool): Bytes {
    if v then [0xFF] else [0x00]
  }

  // ------------------------------------------------------------------------ tags

  /** Seven-bit groups with the continuation bit set, for every group but the last. */
  function Groups(n: nat): Bytes {
    if n == 0 then [] else Groups(n / 128) + [128 + n % 128]
  }

  function HighTag(n: nat): Bytes {
    Groups(n / 128) + [n % 128]
  }

  datatype Scanned = Scanned(value: nat, used: nat)

  function ReadHighTag(b: Bytes, sofar: nat): (r: Option<Scanned>)
    ensures r.Some? ==> 0 < r.value.used <= |b|
  {
    if b == [] then None
    else if b[0] < 128 then Some(Scanned(128 * sofar + b[0], 1))
    else
      var rest := ReadHighTag(b[1..], 128 * sofar + (b[0] - 128));
      if rest.None? then None else Some(Scanned(rest.value.value, 1 + rest.value.used))
  }

  function Shift(r: Option<Scanned>, k: nat): Option<Scanned> {
    if r.None? then None else Some(Scanned(r.value.value, r.value.used + k))
  }

  lemma {:induction false} GroupsRead(n: nat, tail: Bytes)
    ensures ReadHighTag(Groups(n) + tail, 0) == Shift(ReadHighTag(tail, n), |Groups(n)|)
  {
    if n == 0 {
      assert Groups(n) + tail == tail;
    } else {
      var last := [128 + n % 128];
      GroupsRead(n / 128, last + tail);
      assert Groups(n) + tail == Groups(n / 128) + (last + tail);
      assert (last + tail)[1..] == tail;
      assert 128 * (n / 128) + n % 128 == n;
    }
  }

  lemma {:induction false} HighTagReads(n: nat, tail: Bytes)
    ensures ReadHighTag(HighTag(n) + tail, 0) == Some(Scanned(n, |HighTag(n)|))
  {
    GroupsRead(n / 128, [n % 128] + tail);
    assert HighTag(n) + tail == Groups(n / 128) + ([n % 128] + tail);
  }

  datatype Class = Universal | Application | Context | Private

  function ClassCode(c: Class): nat {
    match c
    case Universal => 0
    case Application => 1
    case Context => 2
    case Private => 3
  }

  /** The class in the top two bits of an octet. */
  function ClassOf(o: octet): Class {
    if o < 64 then Universal else if o < 128 then Application else if o < 192 then Context else Private
  }

  function FirstOctet(c: Class, compound: bool, low: nat): octet
    requires low < 32
  {
    64 * ClassCode(c) + (if compound then 32 else 0) + low
  }

  function Identifier(c: Class, compound: bool, tag: nat): (b: Bytes)
    ensures b != []
  {
    if tag < 31 then [FirstOctet(c, compound, tag)] else [FirstOctet(c, compound, 31)] + HighTag(tag)
  }

  datatype Head = Head(class_: Class, compound: bool, tag: nat, used: nat)

  function ReadIdentifier(b: Bytes): (r: Option<Head>)
    ensures r.Some? ==> 0 < r.value.used <= |b|
  {
    if b == [] then None
    else
      var class_ := ClassOf(b[0]);
      var below := b[0] - 64 * ClassCode(class_);
      var compound, low := below >= 32, if below >= 32 then below - 32 else below;
      if low < 31 then Some(Head(class_, compound, low, 1))
      else
        var high := ReadHighTag(b[1..], 0);
        if high.None? then None else Some(Head(class_, compound, high.value.value, 1 + high.value.used))
  }

  lemma {:induction false} IdentifierReads(c: Class, compound: bool, tag: nat, tail: Bytes)
    ensures ReadIdentifier(Identifier(c, compound, tag) + tail)
      == Some(Head(c, compound, tag, |Identifier(c, compound, tag)|))
  {
    var b := Identifier(c, compound, tag) + tail;
    if tag >= 31 {
      HighTagReads(tag, tail);
      assert b[1..] == HighTag(tag) + tail;
    }
  }

  // ------------------------------------------------------------------------ lengths

  /** What a Go slice's length stays below. */
  const MAX_LENGTH: nat := 0x8000_0000_0000_0000

  function LengthOctets(n: nat): (b: Bytes)
    ensures b != []
  {
    if n < 128 then [n]
    else
      var digits := Digits(n);
      [128 + Least(|digits|, 126)] + digits
  }

  function Least(a: nat, b: nat): nat {
    if a <= b then a else b
  }

  function ReadLength(b: Bytes): (r: Option<Scanned>)
    ensures r.Some? ==> 0 < r.value.used <= |b|
  {
    if b == [] then None
    else if b[0] < 128 then Some(Scanned(b[0], 1))
    else if b[0] == 128 || |b| < 1 + (b[0] - 128) then None
    else Some(Scanned(Value(b[1..1 + (b[0] - 128)]), 1 + (b[0] - 128)))
  }

  lemma {:induction false} DigitsOfLength(n: nat)
    requires 0 < n < MAX_LENGTH
    ensures 0 < |Digits(n)| <= 8
  {
    assert Power(8) == 0x1_0000_0000_0000_0000 by {
      assert Power(2) == 0x1_0000;
      assert Power(4) == 0x1_0000_0000;
      assert Power(6) == 0x1_0000_0000_0000;
    }
    DigitsAreFew(n, 8);
  }

  lemma {:induction false} LengthReads(n: nat, tail: Bytes)
    requires n < MAX_LENGTH
    ensures ReadLength(LengthOctets(n) + tail) == Some(Scanned(n, |LengthOctets(n)|))
  {
    if n >= 128 {
      var digits := Digits(n);
      DigitsOfLength(n);
      ValueOfDigits(n);
      var b := LengthOctets(n) + tail;
      assert b[1..1 + |digits|] == digits;
    }
  }

  // --------------------------------------------------------------------- shortest forms

  lemma {:induction false} ValueIsBelow(b: Bytes)
    ensures Value(b) < Power(|b|)
  {
    if b != [] {
      ValueIsBelow(b[..|b| - 1]);
    }
  }

  /** Section 10.1: nothing shorter reads as the same length, and it is one octet exactly below 128. */
  lemma {:induction false} LengthIsShortest(n: nat, b: Bytes)
    requires n < MAX_LENGTH && ReadLength(b) == Some(Scanned(n, |b|))
    ensures |LengthOctets(n)| <= |b|
    ensures |LengthOctets(n)| == 1 <==> n < 128
  {
    if n >= 128 {
      DigitsOfLength(n);
      ValueIsBelow(b[1..]);
      assert b[1..1 + (b[0] - 128)] == b[1..];
      DigitsAreFew(n, |b| - 1);
    }
  }

  lemma {:induction false} DigitsGrow(m: nat, n: nat)
    requires m <= n
    ensures |Digits(m)| <= |Digits(n)|
  {
    if m > 0 {
      DigitsGrow(m / 256, n / 256);
    }
  }

  lemma {:induction false} LengthsGrow(m: nat, n: nat)
    requires m <= n
    ensures |LengthOctets(m)| <= |LengthOctets(n)|
  {
    DigitsGrow(m, n);
  }

  /** The length octets of small contents: one octet, or a count and the length, most significant first. */
  lemma {:induction false} LengthOctetsAre(n: nat)
    ensures n < 128 ==> LengthOctets(n) == [n]
    ensures 128 <= n < 256 ==> LengthOctets(n) == [0x81, n]
    ensures 256 <= n < 65536 ==> LengthOctets(n) == [0x82, n / 256, n % 256]
  {
    if 128 <= n < 65536 {
      assert Digits(n / 256 / 256) == [];
      assert Digits(n / 256) == if n < 256 then [] else [n / 256];
      assert Digits(n) == Digits(n / 256) + [n % 256];
    }
  }

  lemma {:induction false} HighTagIsShortestFrom(b: Bytes, sofar: nat)
    requires ReadHighTag(b, sofar).Some?
    ensures var r := ReadHighTag(b, sofar).value; |HighTag(r.value)| <= r.used + |Groups(sofar)|
  {
    if b[0] < 128 {
      assert (128 * sofar + b[0]) / 128 == sofar;
    } else {
      var next := 128 * sofar + (b[0] - 128);
      HighTagIsShortestFrom(b[1..], next);
      assert next / 128 == sofar;
    }
  }

  lemma {:induction false} GroupsStart(n: nat)
    requires n > 0
    ensures Groups(n) != [] && Groups(n)[0] > 128
  {
    if n >= 128 {
      GroupsStart(n / 128);
    }
  }

  /** Sections 8.1.2.2 and 8.1.2.4.2: the low form exactly below 31, and no leading empty group. */
  lemma {:induction false} IdentifierIsShortest(c: Class, compound: bool, tag: nat, b: Bytes)
    requires ReadIdentifier(b) == Some(Head(c, compound, tag, |b|))
    ensures |Identifier(c, compound, tag)| <= |b|
    ensures |Identifier(c, compound, tag)| == 1 <==> tag < 31
    ensures tag >= 31 ==> Identifier(c, compound, tag)[1] != 128
  {
    if tag >= 31 {
      HighTagIsShortestFrom(b[1..], 0);
      if tag >= 128 {
        GroupsStart(tag / 128);
      }
    }
  }

  /** The identifier octets: class in the top two bits, then the constructed bit, then the tag. */
  lemma {:induction false} IdentifierOctetsAre(compound: bool, tag: nat)
    ensures Identifier(Universal, true, 16) == [0x30]
    ensures var low := 0x80 + if compound then 0x20 else 0;
      && (tag < 31 ==> Identifier(Context, compound, tag) == [low + tag])
      && (31 <= tag < 128 ==> Identifier(Context, compound, tag) == [low + 31, tag])
      && (128 <= tag < 16384 ==> Identifier(Context, compound, tag) == [low + 31, 128 + tag / 128, tag % 128])
  {
    if 31 <= tag < 16384 {
      assert Groups(tag / 128 / 128) == [];
      assert Groups(tag / 128) == if tag < 128 then [] else [128 + tag / 128 % 128];
    }
  }

  /** Section 11.1: a BOOLEAN is one octet, all ones or all zeros. */
  lemma {:induction false} BooleanIsCanonical(v: bool)
    ensures BooleanOctets(v) == if v then [0xFF] else [0x00]
  {
  }

  // ------------------------------------------------------------------ nested elements

  datatype Tlv =
    | Prim(class_: Class, tag: nat, content: Bytes)
    | Cons(class_: Class, tag: nat, children: seq<Tlv>)

  function Element(c: Class, compound: bool, tag: nat, content: Bytes): (b: Bytes)
    ensures |b| >= |content| + 2
  {
    Identifier(c, compound, tag) + LengthOctets(|content|) + content
  }

  function Encode(t: Tlv): Bytes {
    match t
    case Prim(c, tag, content) => Element(c, false, tag, content)
    case Cons(c, tag, children) => Element(c, true, tag, EncodeAll(children))
  }

  function EncodeAll(ts: seq<Tlv>): Bytes {
    if ts == [] then [] else Encode(ts[0]) + EncodeAll(ts[1..])
  }

  datatype Header = Header(head: Head, length: nat, start: nat)

  /** The identifier and length at the front, if the content they announce is all there. */
  function ReadHeader(b: Bytes): (r: Option<Header>)
    ensures r.Some? ==> 2 <= r.value.start && r.value.start + r.value.length <= |b|
  {
    var head := ReadIdentifier(b);
    if head.None? then None
    else
      var length := ReadLength(b[head.value.used..]);
      if length.None? then None
      else
        var start := head.value.used + length.value.used;
        if start + length.value.value > |b| then None else Some(Header(head.value, length.value.value, start))
  }

  datatype Parsed = Parsed(element: Tlv, used: nat)

  function Parse(b: Bytes): (r: Option<Parsed>)
    ensures r.Some? ==> 0 < r.value.used <= |b|
    decreases |b|, 0
  {
    var h := ReadHeader(b);
    if h.None? then None
    else
      var end := h.value.start + h.value.length;
      var content := b[h.value.start..end];
      if !h.value.head.compound then Some(Parsed(Prim(h.value.head.class_, h.value.head.tag, content), end))
      else
        var children := ParseAll(content);
        if children.None? then None
        else Some(Parsed(Cons(h.value.head.class_, h.value.head.tag, children.value), end))
  }

  function ParseAll(b: Bytes): Option<seq<Tlv>>
    decreases |b|, 1
  {
    if b == [] then Some([])
    else
      var first := Parse(b);
      if first.None? then None
      else
        var rest := ParseAll(b[first.value.used..]);
        if rest.None? then None else Some([first.value.element] + rest.value)
  }

  lemma {:induction false} HeaderReads(c: Class, compound: bool, tag: nat, content: Bytes, tail: Bytes)
    requires |content| < MAX_LENGTH
    ensures var b := Element(c, compound, tag, content) + tail;
      var start := |Element(c, compound, tag, content)| - |content|;
      && ReadHeader(b) == Some(Header(Head(c, compound, tag, |Identifier(c, compound, tag)|), |content|, start))
      && b[start..start + |content|] == content
  {
    var id, len := Identifier(c, compound, tag), LengthOctets(|content|);
    var b := Element(c, compound, tag, content) + tail;
    assert b == id + (len + content + tail);
    assert b[|id|..] == len + (content + tail);
    IdentifierReads(c, compound, tag, len + content + tail);
    LengthReads(|content|, content + tail);
    assert len + content + tail == len + (content + tail);
  }

  /** b starts with an element of that identifier and content, used octets in all. */
  ghost predicate Heads(b: Bytes, c: Class, compound: bool, tag: nat, content: Bytes, used: nat) {
    ReadHeader(b).Some? &&
    var h := ReadHeader(b).value;
    && h.head.class_ == c && h.head.compound == compound && h.head.tag == tag
    && h.start + h.length == used && b[h.start..used] == content
  }

  lemma {:induction false} ElementHeads(c: Class, compound: bool, tag: nat, content: Bytes, tail: Bytes)
    requires |content| < MAX_LENGTH
    ensures Heads(Element(c, compound, tag, content) + tail, c, compound, tag, content,
      |Element(c, compound, tag, content)|)
  {
    HeaderReads(c, compound, tag, content, tail);
  }

  lemma {:induction false} PrimParses(b: Bytes, c: Class, tag: nat, content: Bytes, used: nat)
    requires Heads(b, c, false, tag, content, used)
    ensures Parse(b) == Some(Parsed(Prim(c, tag, content), used))
  {
  }

  lemma {:induction false} ConsParses(b: Bytes, c: Class, tag: nat, content: Bytes, used: nat, children: seq<Tlv>)
    requires Heads(b, c, true, tag, content, used) && ParseAll(content) == Some(children)
    ensures Parse(b) == Some(Parsed(Cons(c, tag, children), used))
  {
  }

  /** What is encoded is read back, whatever follows it. */
  lemma {:induction false} ParseReads(t: Tlv, tail: Bytes)
    requires |Encode(t)| < MAX_LENGTH
    ensures Parse(Encode(t) + tail) == Some(Parsed(t, |Encode(t)|))
    decreases t
  {
    match t
    case Prim(c, tag, content) =>
      ElementHeads(c, false, tag, content, tail);
      PrimParses(Encode(t) + tail, c, tag, content, |Encode(t)|);
    case Cons(c, tag, children) =>
      ParseAllReads(children);
      ElementHeads(c, true, tag, EncodeAll(children), tail);
      ConsParses(Encode(t) + tail, c, tag, EncodeAll(children), |Encode(t)|, children);
  }

  lemma {:induction false} ParseAllReads(ts: seq<Tlv>)
    requires |EncodeAll(ts)| < MAX_LENGTH
    ensures ParseAll(EncodeAll(ts)) == Some(ts)
    decreases ts
  {
    if ts != [] {
      var first, rest := Encode(ts[0]), EncodeAll(ts[1..]);
      ParseReads(ts[0], rest);
      ParseAllReads(ts[1..]);
      assert first + rest != [] && (first + rest)[|first|..] == rest;
      assert [ts[0]] + ts[1..] == ts;
    }
  }

  lemma {:induction false} HeaderIsShortest(b: Bytes, h: Header, c: Class, compound: bool, tag: nat, content: Bytes)
    requires ReadHeader(b) == Some(h) && h.start + h.length == |b| < MAX_LENGTH
    requires h.head.class_ == c && h.head.compound == compound && h.head.tag == tag && |content| <= h.length
    ensures |Element(c, compound, tag, content)| <= |b|
  {
    var used := h.head.used;
    var id, len := b[..used], b[used..h.start];
    assert b[..used] + b[used..] == b;
    IdentifierOfPrefix(b);
    IdentifierIsShortest(c, compound, tag, id);
    LengthOfPrefix(b[used..]);
    assert b[used..][..h.start - used] == len;
    LengthIsShortest(h.length, len);
    LengthsGrow(|content|, h.length);
  }

  lemma {:induction false} HighTagOfPrefix(b: Bytes, sofar: nat)
    requires ReadHighTag(b, sofar).Some?
    ensures ReadHighTag(b[..ReadHighTag(b, sofar).value.used], sofar) == ReadHighTag(b, sofar)
  {
    var used := ReadHighTag(b, sofar).value.used;
    if b[0] >= 128 {
      HighTagOfPrefix(b[1..], 128 * sofar + (b[0] - 128));
      assert b[..used][1..] == b[1..][..used - 1];
    }
  }

  lemma {:induction false} IdentifierOfPrefix(b: Bytes)
    requires ReadIdentifier(b).Some?
    ensures ReadIdentifier(b[..ReadIdentifier(b).value.used]) == ReadIdentifier(b)
  {
    var used := ReadIdentifier(b).value.used;
    if used > 1 {
      HighTagOfPrefix(b[1..], 0);
      assert b[..used][1..] == b[1..][..used - 1];
    }
  }

  lemma {:induction false} LengthOfPrefix(b: Bytes)
    requires ReadLength(b).Some?
    ensures ReadLength(b[..ReadLength(b).value.used]) == ReadLength(b)
  {
    var used := ReadLength(b).value.used;
    if b[0] >= 128 {
      assert b[..used][1..used] == b[1..used];
    }
  }

  /** What is written is the shortest of all the octets a reader takes for the same element. */
  lemma {:induction false} EncodingIsShortest(t: Tlv, b: Bytes)
    requires Parse(b) == Some(Parsed(t, |b|)) && |b| < MAX_LENGTH
    ensures |Encode(t)| <= |b|
    decreases t
  {
    var h := ReadHeader(b).value;
    var content := b[h.start..h.start + h.length];
    match t
    case Prim(c, tag, contents) => HeaderIsShortest(b, h, c, false, tag, contents);
    case Cons(c, tag, children) =>
      AllShortest(children, content);
      HeaderIsShortest(b, h, c, true, tag, EncodeAll(children));
  }

  lemma {:induction false} AllShortest(ts: seq<Tlv>, b: Bytes)
    requires ParseAll(b) == Some(ts) && |b| < MAX_LENGTH
    ensures |EncodeAll(ts)| <= |b|
    decreases ts
  {
    if b != [] {
      var used := Parse(b).value.used;
      ParseOfPrefix(b);
      EncodingIsShortest(ts[0], b[..used]);
      AllShortest(ts[1..], b[used..]);
    }
  }

  lemma {:induction false} HeaderOfPrefix(b: Bytes)
    requires ReadHeader(b).Some?
    ensures var h := ReadHeader(b).value; ReadHeader(b[..h.start + h.length]) == Some(h)
  {
    var h := ReadHeader(b).value;
    var used, end := h.head.used, h.start + h.length;
    IdentifierUpTo(b, end);
    LengthUpTo(b[used..], end - used);
    assert b[..end][used..] == b[used..][..end - used];
  }

  lemma {:induction false} IdentifierUpTo(b: Bytes, end: nat)
    requires ReadIdentifier(b).Some? && ReadIdentifier(b).value.used <= end <= |b|
    ensures ReadIdentifier(b[..end]) == ReadIdentifier(b)
  {
    var used := ReadIdentifier(b).value.used;
    IdentifierOfPrefix(b);
    IdentifierIgnoresSuffix(b[..used], b[used..end]);
    assert b[..used] + b[used..end] == b[..end];
  }

  lemma {:induction false} LengthUpTo(b: Bytes, end: nat)
    requires ReadLength(b).Some? && ReadLength(b).value.used <= end <= |b|
    ensures ReadLength(b[..end]) == ReadLength(b)
  {
    var used := ReadLength(b).value.used;
    LengthOfPrefix(b);
    LengthIgnoresSuffix(b[..used], b[used..end]);
    assert b[..used] + b[used..end] == b[..end];
  }

  lemma {:induction false} HighTagIgnoresSuffix(b: Bytes, s: Bytes, sofar: nat)
    requires ReadHighTag(b, sofar).Some?
    ensures ReadHighTag(b + s, sofar) == ReadHighTag(b, sofar)
  {
    if b[0] >= 128 {
      HighTagIgnoresSuffix(b[1..], s, 128 * sofar + (b[0] - 128));
      assert (b + s)[1..] == b[1..] + s;
    }
  }

  lemma {:induction false} IdentifierIgnoresSuffix(b: Bytes, s: Bytes)
    requires ReadIdentifier(b).Some?
    ensures ReadIdentifier(b + s) == ReadIdentifier(b)
  {
    if ReadIdentifier(b).value.used > 1 {
      HighTagIgnoresSuffix(b[1..], s, 0);
      assert (b + s)[1..] == b[1..] + s;
    }
  }

  lemma {:induction false} LengthIgnoresSuffix(b: Bytes, s: Bytes)
    requires ReadLength(b).Some?
    ensures ReadLength(b + s) == ReadLength(b)
  {
    if b[0] >= 128 {
      var k := b[0] - 128;
      assert (b + s)[1..1 + k] == b[1..1 + k];
    }
  }

  lemma {:induction false} ParseOfPrefix(b: Bytes)
    requires Parse(b).Some?
    ensures Parse(b[..Parse(b).value.used]) == Parse(b)
  {
    HeaderOfPrefix(b);
    var h := ReadHeader(b).value;
    assert b[..h.start + h.length][h.start..h.start + h.length] == b[h.start..h.start + h.length];
  }
}
