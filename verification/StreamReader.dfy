/**
 readLoop of x2x3/keepalive.go: an incremental reader that appends each read to a buffer,
 refuses a PDU declaring more than 4096 octets, and hands every decoded PDU to a handler.
 The size check is made once per read, at the head of the buffer, and not again for the
 PDUs decoded behind it; the lemmas below say what that does and does not change.
 */
module StreamReader {
  import opened Octets
  import opened Pdu
  import opened PduProperties
  import opened Framing
  import PduCodec

  const MAX_INBOUND: nat := 4096
  const READ_SIZE: nat := 512

  datatype Verdict = Running | ProtocolError | Finished

  datatype Reader = Reader(buf: seq<octet>, handed: seq<PDU>, verdict: Verdict)

  /**
   What handleInbound answers for the last of the PDUs handed to it so far. Any fixed
   behaviour of the handler is such a function.
   */
  type Handler = seq<PDU> -> bool

  predicate Oversize(b: seq<octet>) {
    |b| >= 12 && Declared(b) > MAX_INBOUND
  }

  // -------------------------------------------------------------- specification

  /** The inner loop: decode from the front until a PDU is incomplete. */
  function Drain(b: seq<octet>, handed: seq<PDU>, h: Handler): Reader
    decreases |b|
  {
    match Decode(b)
    case Incomplete => Reader(b, handed, Running)
    case Malformed(_) => Reader(b, handed, ProtocolError)
    case Parsed(p, used) =>
      if h(handed + [p]) then Drain(b[used..], handed + [p], h)
      else Reader(b[used..], handed + [p], Finished)
  }

  /** One turn of the outer loop. */
  function Feed(r: Reader, chunk: seq<octet>, h: Handler): Reader {
    if !r.verdict.Running? then r
    else
      var b := r.buf + chunk;
      if Oversize(b) then Reader(b, r.handed, ProtocolError) else Drain(b, r.handed, h)
  }

  const Start := Reader([], [], Running)

  function FeedAll(chunks: seq<seq<octet>>, h: Handler): Reader {
    if chunks == [] then Start
    else Feed(FeedAll(chunks[..|chunks| - 1], h), chunks[|chunks| - 1], h)
  }

  function Concat(chunks: seq<seq<octet>>): seq<octet> {
    if chunks == [] then []
    else Concat(chunks[..|chunks| - 1]) + chunks[|chunks| - 1]
  }

  /** The reference: one parse of the whole stream, every PDU held to the size limit. */
  function Scan(b: seq<octet>, handed: seq<PDU>, h: Handler): (seq<PDU>, Verdict)
    decreases |b|
  {
    if Oversize(b) then (handed, ProtocolError)
    else
      match Decode(b)
      case Incomplete => (handed, Running)
      case Malformed(_) => (handed, ProtocolError)
      case Parsed(p, used) =>
        if h(handed + [p]) then Scan(b[used..], handed + [p], h)
        else (handed + [p], Finished)
  }

  // ------------------------------------------------------------------ invariant

  /** Having handed `handed` over, the reader stands behind `prefix` of the stream. */
  ghost predicate Settled(prefix: seq<octet>, handed: seq<PDU>, h: Handler) {
    forall t: seq<octet> {:trigger Scan(prefix + t, [], h)} :: Scan(prefix + t, [], h) == Scan(t, handed, h)
  }

  /** No continuation of the stream changes what has been decided. */
  ghost predicate Decided(stream: seq<octet>, r: Reader, h: Handler) {
    forall t: seq<octet> {:trigger Scan(stream + t, [], h)} :: Scan(stream + t, [], h) == (r.handed, r.verdict)
  }

  /** What the buffer holds between two reads. */
  ghost predicate BufferBounded(b: seq<octet>) {
    && |b| < MAX_INBOUND
    && Decode(b).Incomplete?
    && (Oversize(b) ==> |b| < READ_SIZE)
  }

  ghost predicate Tracks(r: Reader, stream: seq<octet>, h: Handler) {
    if r.verdict.Running? then
      && BufferBounded(r.buf)
      && exists prefix :: stream == prefix + r.buf && Settled(prefix, r.handed, h)
    else
      Decided(stream, r, h)
  }

  /** A buffer in which no oversize PDU can be decoded. */
  ghost predicate Drainable(b: seq<octet>) {
    || |b| < READ_SIZE
    || (!Oversize(b) && (Decode(b).Parsed? ==> |b| - Decode(b).used < READ_SIZE))
  }

  lemma {:induction false} HeadIgnoresSuffix(b: seq<octet>, t: seq<octet>)
    requires |b| >= 12
    ensures Declared(b + t) == Declared(b) && DeclaredHeader(b + t) == DeclaredHeader(b)
  {
    assert (b + t)[4..8] == b[4..8] && (b + t)[8..12] == b[8..12];
  }

  lemma {:induction false} ScanStops(b: seq<octet>, t: seq<octet>, handed: seq<PDU>, h: Handler)
    requires Oversize(b) || Decode(b).Malformed?
    ensures Scan(b + t, handed, h) == (handed, ProtocolError)
  {
    if Oversize(b) {
      HeadIgnoresSuffix(b, t);
    } else {
      DecodeIgnoresSuffix(b, t);
    }
  }

  lemma {:induction false} ScanTakes(b: seq<octet>, t: seq<octet>, handed: seq<PDU>, h: Handler)
    requires !Oversize(b) && Decode(b).Parsed?
    ensures var p, used := Decode(b).pdu, Decode(b).used;
      Scan(b + t, handed, h) == if h(handed + [p]) then Scan(b[used..] + t, handed + [p], h)
                                else (handed + [p], Finished)
  {
    HeadIgnoresSuffix(b, t);
    DecodeIgnoresSuffix(b, t);
    assert (b + t)[Decode(b).used..] == b[Decode(b).used..] + t;
  }

  lemma {:induction false} DecidedFrom(prefix: seq<octet>, b: seq<octet>, handed: seq<PDU>, r: Reader, h: Handler)
    requires Settled(prefix, handed, h)
    requires forall t: seq<octet> {:trigger Scan(b + t, handed, h)} :: Scan(b + t, handed, h) == (r.handed, r.verdict)
    ensures Decided(prefix + b, r, h)
  {
    forall t: seq<octet> ensures Scan(prefix + b + t, [], h) == (r.handed, r.verdict) {
      assert prefix + b + t == prefix + (b + t);
    }
  }

  lemma {:induction false} SettledFrom(prefix: seq<octet>, c: seq<octet>, handed: seq<PDU>, more: seq<PDU>, h: Handler)
    requires Settled(prefix, handed, h)
    requires forall t: seq<octet> {:trigger Scan(c + t, handed, h)} :: Scan(c + t, handed, h) == Scan(t, more, h)
    ensures Settled(prefix + c, more, h)
  {
    forall t: seq<octet> ensures Scan(prefix + c + t, [], h) == Scan(t, more, h) {
      assert prefix + c + t == prefix + (c + t);
    }
  }

  lemma {:induction false} DecodeOfExactPdu(b: seq<octet>)
    requires Decode(b).Parsed?
    ensures Decode(b[..Decode(b).used]) == Decode(b)
  {
    var used := Decode(b).used;
    var c := b[..used];
    assert c[4..8] == b[4..8] && c[8..12] == b[8..12];
    assert !Decode(c).Incomplete?;
    DecodeIgnoresSuffix(c, b[used..]);
    assert c + b[used..] == b;
  }

  lemma {:induction false} SettledPastPdu(prefix: seq<octet>, b: seq<octet>, handed: seq<PDU>, h: Handler)
    requires Settled(prefix, handed, h)
    requires !Oversize(b) && Decode(b).Parsed? && h(handed + [Decode(b).pdu])
    ensures Settled(prefix + b[..Decode(b).used], handed + [Decode(b).pdu], h)
  {
    var p, c := Decode(b).pdu, b[..Decode(b).used];
    DecodeOfExactPdu(b);
    forall t: seq<octet> ensures Scan(c + t, handed, h) == Scan(t, handed + [p], h) {
      ScanTakes(c, t, handed, h);
      assert c[|c|..] + t == t;
    }
    SettledFrom(prefix, c, handed, handed + [p], h);
  }

  lemma {:induction false} IncompleteIsBounded(b: seq<octet>)
    requires Drainable(b) && Decode(b).Incomplete?
    ensures BufferBounded(b)
  {
  }

  lemma {:induction false} ParsedIsWithinLimit(b: seq<octet>)
    requires Drainable(b) && Decode(b).Parsed?
    ensures !Oversize(b) && Drainable(b[Decode(b).used..])
  {
  }

  lemma {:induction false} DrainTracks(prefix: seq<octet>, b: seq<octet>, handed: seq<PDU>, h: Handler)
    requires Settled(prefix, handed, h) && Drainable(b)
    ensures Tracks(Drain(b, handed, h), prefix + b, h)
    decreases |b|
  {
    var r := Drain(b, handed, h);
    var d := Decode(b);
    if d.Incomplete? {
      IncompleteIsBounded(b);
    } else if d.Malformed? {
      forall t: seq<octet> ensures Scan(b + t, handed, h) == (r.handed, r.verdict) {
        ScanStops(b, t, handed, h);
      }
      DecidedFrom(prefix, b, handed, r, h);
    } else {
      ParsedIsWithinLimit(b);
      if h(handed + [d.pdu]) {
        SettledPastPdu(prefix, b, handed, h);
        assert prefix + b == prefix + b[..d.used] + b[d.used..];
        DrainTracks(prefix + b[..d.used], b[d.used..], handed + [d.pdu], h);
      } else {
        forall t: seq<octet> ensures Scan(b + t, handed, h) == (r.handed, r.verdict) {
          ScanTakes(b, t, handed, h);
        }
        DecidedFrom(prefix, b, handed, r, h);
      }
    }
  }

  lemma {:induction false} AppendedIsDrainable(buf: seq<octet>, chunk: seq<octet>)
    requires BufferBounded(buf) && |chunk| <= READ_SIZE
    requires !Oversize(buf + chunk)
    ensures Drainable(buf + chunk)
  {
    if |buf| >= 12 {
      HeadIgnoresSuffix(buf, chunk);
    }
  }

  lemma {:induction false} FeedTracksRunning(prefix: seq<octet>, r: Reader, chunk: seq<octet>, h: Handler)
    requires r.verdict.Running? && BufferBounded(r.buf) && |chunk| <= READ_SIZE
    requires Settled(prefix, r.handed, h)
    ensures Tracks(Feed(r, chunk, h), prefix + (r.buf + chunk), h)
  {
    var b := r.buf + chunk;
    if Oversize(b) {
      forall t: seq<octet> ensures Scan(b + t, r.handed, h) == (r.handed, ProtocolError) {
        ScanStops(b, t, r.handed, h);
      }
      DecidedFrom(prefix, b, r.handed, Feed(r, chunk, h), h);
    } else {
      AppendedIsDrainable(r.buf, chunk);
      DrainTracks(prefix, b, r.handed, h);
    }
  }

  lemma {:induction false} DecidedStays(r: Reader, chunk: seq<octet>, stream: seq<octet>, h: Handler)
    requires Decided(stream, r, h)
    ensures Decided(stream + chunk, r, h)
  {
    forall t: seq<octet> ensures Scan(stream + chunk + t, [], h) == (r.handed, r.verdict) {
      assert stream + chunk + t == stream + (chunk + t);
    }
  }

  lemma {:induction false} FeedTracks(r: Reader, chunk: seq<octet>, stream: seq<octet>, h: Handler)
    requires Tracks(r, stream, h) && |chunk| <= READ_SIZE
    ensures Tracks(Feed(r, chunk, h), stream + chunk, h)
  {
    if r.verdict.Running? {
      var prefix :| stream == prefix + r.buf && Settled(prefix, r.handed, h);
      FeedTracksRunning(prefix, r, chunk, h);
      assert stream + chunk == prefix + (r.buf + chunk);
    } else {
      DecidedStays(r, chunk, stream, h);
    }
  }

  ghost predicate Reads(chunks: seq<seq<octet>>) {
    forall i :: 0 <= i < |chunks| ==> |chunks[i]| <= READ_SIZE
  }

  lemma {:induction false} FeedAllTracks(chunks: seq<seq<octet>>, h: Handler)
    requires Reads(chunks)
    ensures Tracks(FeedAll(chunks, h), Concat(chunks), h)
  {
    if chunks == [] {
      assert forall t: seq<octet> :: [] + t == t;
      assert Settled([], [], h);
      assert Concat(chunks) == [] + Start.buf;
    } else {
      var front := chunks[..|chunks| - 1];
      FeedAllTracks(front, h);
      FeedTracks(FeedAll(front, h), chunks[|chunks| - 1], Concat(front), h);
    }
  }

  // --------------------------------------------------------------- main results

  /** However the stream is split into reads, the handler is given the whole-stream parse. */
  lemma {:induction false} SplitDoesNotMatter(chunks: seq<seq<octet>>, h: Handler)
    requires Reads(chunks)
    ensures FeedAll(chunks, h).handed == Scan(Concat(chunks), [], h).0
  {
    FeedAllTracks(chunks, h);
    var r, s := FeedAll(chunks, h), Concat(chunks);
    assert s + [] == s;
    assert r.verdict.Running? ==> Scan(s, [], h) == Scan(r.buf, r.handed, h);
  }

  /**
   The whole parse of b stops at a PDU that is too large, and not before: one that is not
   refused for its header first.
   */
  predicate StopsOversize(b: seq<octet>, handed: seq<PDU>, h: Handler)
    decreases |b|
  {
    if Oversize(b) then DeclaredHeader(b) >= MANDATORY_HEADER_LENGTH
    else
      match Decode(b)
      case Parsed(p, used) => h(handed + [p]) && StopsOversize(b[used..], handed + [p], h)
      case _ => false
  }

  /** Draining misses a protocol error exactly if the parse stops at a PDU that is too large. */
  lemma {:induction false} DrainLags(b: seq<octet>, handed: seq<PDU>, h: Handler)
    requires Drainable(b)
    ensures Drain(b, handed, h).verdict == Scan(b, handed, h).1 <==> !StopsOversize(b, handed, h)
    ensures StopsOversize(b, handed, h) ==>
      Drain(b, handed, h).verdict.Running? && Oversize(Drain(b, handed, h).buf) && Scan(b, handed, h).1 == ProtocolError
    decreases |b|
  {
    var d := Decode(b);
    if d.Parsed? {
      ParsedIsWithinLimit(b);
      if h(handed + [d.pdu]) {
        DrainLags(b[d.used..], handed + [d.pdu], h);
      }
    }
  }

  lemma {:induction false} TrackedVerdict(front: seq<seq<octet>>, c: seq<octet>, h: Handler)
    requires Reads(front) && FeedAll(front, h).verdict.Running?
    ensures BufferBounded(FeedAll(front, h).buf)
    ensures Scan(Concat(front) + c, [], h) == Scan(FeedAll(front, h).buf + c, FeedAll(front, h).handed, h)
  {
    FeedAllTracks(front, h);
    var r := FeedAll(front, h);
    var prefix :| Concat(front) == prefix + r.buf && Settled(prefix, r.handed, h);
    assert Concat(front) + c == prefix + (r.buf + c);
  }

  /**
   When the verdict lags, said of the reader before a read and of the octets read: a running
   reader comes out of the read with another verdict than the whole stream's if and only if
   no PDU that is too large was at the head of its buffer and the parse then meets one.
   */
  lemma {:induction false} VerdictLagsExactlyWhen(front: seq<seq<octet>>, c: seq<octet>, h: Handler)
    requires Reads(front) && |c| <= READ_SIZE && FeedAll(front, h).verdict.Running?
    ensures var r := FeedAll(front, h);
      FeedAll(front + [c], h).verdict != Scan(Concat(front + [c]), [], h).1 <==>
        !Oversize(r.buf + c) && StopsOversize(r.buf + c, r.handed, h)
  {
    assert (front + [c])[..|front|] == front;
    TrackedVerdict(front, c, h);
    var r := FeedAll(front, h);
    if !Oversize(r.buf + c) {
      AppendedIsDrainable(r.buf, c);
      DrainLags(r.buf + c, r.handed, h);
    }
  }

  /** A reader that has stopped has the whole stream's verdict. */
  lemma {:induction false} StoppedVerdictIsFinal(chunks: seq<seq<octet>>, h: Handler)
    requires Reads(chunks) && !FeedAll(chunks, h).verdict.Running?
    ensures FeedAll(chunks, h).verdict == Scan(Concat(chunks), [], h).1
  {
    FeedAllTracks(chunks, h);
    assert Concat(chunks) + [] == Concat(chunks);
  }

  /**
   The lag is one read: a reader that has missed an error is running with a PDU that is too
   large at the head of its buffer, and any further read, of any octets, reports it and hands
   nothing on.
   */
  lemma {:induction false} VerdictLagsByOneRead(front: seq<seq<octet>>, c: seq<octet>, next: seq<octet>, h: Handler)
    requires Reads(front) && |c| <= READ_SIZE && FeedAll(front, h).verdict.Running?
    requires FeedAll(front + [c], h).verdict != Scan(Concat(front + [c]), [], h).1
    ensures var r := FeedAll(front + [c], h);
      && r.verdict.Running? && Oversize(r.buf)
      && FeedAll(front + [c] + [next], h) == Reader(r.buf + next, r.handed, ProtocolError)
      && Scan(Concat(front + [c]), [], h).1 == ProtocolError
  {
    assert (front + [c])[..|front|] == front;
    assert (front + [c] + [next])[..|front| + 1] == front + [c];
    VerdictLagsExactlyWhen(front, c, h);
    TrackedVerdict(front, c, h);
    var before, r := FeedAll(front, h), FeedAll(front + [c], h);
    AppendedIsDrainable(before.buf, c);
    DrainLags(before.buf + c, before.handed, h);
    HeadIgnoresSuffix(r.buf, next);
  }

  lemma {:induction false} DrainTakesOne(p: PDU, t: seq<octet>, h: Handler)
    requires Sendable(p) && |Wire(p)| <= MAX_INBOUND && h([p])
    ensures !Oversize(Wire(p) + t)
    ensures Drain(Wire(p) + t, [], h) == Drain(t, [p], h)
  {
    RoundTrip(p, t);
    assert (Wire(p) + t)[|Wire(p)|..] == t;
    assert [] + [p] == [p];
  }

  lemma {:induction false} LagBetween(w: seq<octet>, o: seq<octet>, p: PDU, h: Handler)
    requires !Oversize(w) && !Oversize(w + o) && Oversize(o)
    requires Drain(w, [], h) == Reader([], [p], Running)
    requires Drain(w + o, [], h).verdict == Running
    ensures FeedAll([w + o], h).verdict == Running
    ensures FeedAll([w, o], h).verdict == ProtocolError
  {
    var joined: seq<seq<octet>>, first: seq<seq<octet>>, both: seq<seq<octet>> := [w + o], [w], [w, o];
    assert joined[..0] == [] && first[..0] == [] && both[..1] == first;
    assert [] + w == w && [] + (w + o) == w + o && [] + o == o;
    assert FeedAll(first, h) == Reader([], [p], Running);
  }

  /** A PDU and an oversize header: one read leaves the reader running, two stop it. */
  lemma {:induction false} LagIsReal(p: PDU, o: seq<octet>, h: Handler)
    requires Sendable(p) && |Wire(p)| <= 500 && h([p])
    requires |o| == 12 && Oversize(o) && DeclaredHeader(o) >= MANDATORY_HEADER_LENGTH
    ensures FeedAll([Wire(p) + o], h).verdict == Running
    ensures FeedAll([Wire(p), o], h).verdict == ProtocolError
  {
    DrainTakesOne(p, o, h);
    DrainTakesOne(p, [], h);
    assert Wire(p) + [] == Wire(p);
    LagBetween(Wire(p), o, p, h);
  }

  /** An acknowledgement of 40 octets, and the head of a PDU declaring 4136. */
  const BareAck := PDU(TYPE_KEEPALIVE_ACK, 0, 0, seq(16, _ => 0), seq(8, _ => 0), [], [])
  const LargeHead: seq<octet> := [0, 5, 0, 4, 0, 0, 0, 40, 0, 0, 16, 0]

  /** Those two in one read leave any reader that accepts the first running; in two they stop it. */
  lemma {:induction false} LagAtOnePdu(h: Handler)
    requires h([BareAck])
    ensures Sendable(BareAck) && |Wire(BareAck)| == 40
    ensures FeedAll([Wire(BareAck) + LargeHead], h).verdict == Running
    ensures FeedAll([Wire(BareAck), LargeHead], h).verdict == ProtocolError
  {
    WireLength(BareAck);
    assert LargeHead[4..8] == [0, 0, 0, 40] && LargeHead[8..12] == [0, 0, 16, 0];
    LagIsReal(BareAck, LargeHead, h);
  }

  /** The buffer's size between reads and just after one. */
  lemma {:induction false} BufferStaysBounded(chunks: seq<seq<octet>>, chunk: seq<octet>, h: Handler)
    requires Reads(chunks) && |chunk| <= READ_SIZE
    requires FeedAll(chunks, h).verdict.Running?
    ensures |FeedAll(chunks, h).buf| <= 4095
    ensures |FeedAll(chunks, h).buf + chunk| <= 4607
  {
    FeedAllTracks(chunks, h);
  }

  ghost predicate WithinLimit(handed: seq<PDU>) {
    forall i :: 0 <= i < |handed| ==> ValuesFit(handed[i].attributes) && |Wire(handed[i])| <= 4096
  }

  lemma {:induction false} ScanWithinLimit(b: seq<octet>, handed: seq<PDU>, h: Handler)
    requires WithinLimit(handed)
    ensures WithinLimit(Scan(b, handed, h).0)
    decreases |b|
  {
    if !Oversize(b) && Decode(b).Parsed? {
      var p := Decode(b).pdu;
      RemarshalReproduces(b);
      assert WithinLimit(handed + [p]);
      ScanWithinLimit(b[Decode(b).used..], handed + [p], h);
    }
  }

  /** No PDU larger than the limit is ever decoded, for any split into reads. */
  lemma {:induction false} NothingOversizeIsHanded(chunks: seq<seq<octet>>, h: Handler)
    requires Reads(chunks)
    ensures WithinLimit(FeedAll(chunks, h).handed)
  {
    SplitDoesNotMatter(chunks, h);
    ScanWithinLimit(Concat(chunks), [], h);
  }

  /** The handler asks for more after the unit at k. */
  ghost predicate GoesOn(handed: seq<PDU>, units: seq<PDU>, k: nat, h: Handler)
    requires k < |units|
  {
    h(handed + units[..k + 1])
  }

  ghost predicate Small(units: seq<PDU>)
    requires AllSendable(units)
  {
    forall i :: 0 <= i < |units| ==> |Wire(units[i])| <= 4096
  }

  ghost predicate KeepsOn(handed: seq<PDU>, units: seq<PDU>, h: Handler) {
    forall k: nat :: k < |units| ==> GoesOn(handed, units, k, h)
  }

  lemma {:induction false} StillGoesOn(handed: seq<PDU>, units: seq<PDU>, h: Handler)
    requires units != [] && KeepsOn(handed, units, h)
    ensures h(handed + [units[0]]) && KeepsOn(handed + [units[0]], units[1..], h)
  {
    var p, rest := units[0], units[1..];
    assert units[..1] == [p] && GoesOn(handed, units, 0, h);
    forall k: nat | k < |rest| ensures GoesOn(handed + [p], rest, k, h) {
      assert GoesOn(handed, units, k + 1, h);
      assert handed + [p] + rest[..k + 1] == handed + units[..k + 2];
    }
  }

  lemma {:induction false} Regrouped(a: seq<PDU>, b: seq<PDU>, c: seq<PDU>)
    ensures a + b + c == a + (b + c)
  {
  }

  lemma {:induction false} ScanTakesWire(p: PDU, t: seq<octet>, handed: seq<PDU>, h: Handler)
    requires Sendable(p) && |Wire(p)| <= 4096 && h(handed + [p])
    ensures Scan(Wire(p) + t, handed, h) == Scan(t, handed + [p], h)
  {
    RoundTrip(p, t);
    assert (Wire(p) + t)[|Wire(p)|..] == t;
  }

  /** The parse goes through small units and stands behind them. */
  lemma {:induction false} ScanOfStream(units: seq<PDU>, t: seq<octet>, handed: seq<PDU>, h: Handler)
    requires AllSendable(units) && Small(units) && KeepsOn(handed, units, h)
    ensures Scan(Stream(units) + t, handed, h) == Scan(t, handed + units, h)
    decreases |units|
  {
    if units == [] {
      assert handed + [] == handed && Stream(units) + t == t;
    } else {
      var p, rest := units[0], units[1..];
      StreamCons(units);
      StillGoesOn(handed, units, h);
      ScanTakesWire(p, Stream(rest) + t, handed, h);
      Associate(Wire(p), Stream(rest), t);
      assert AllSendable(rest) && Small(rest);
      ScanOfStream(rest, t, handed + [p], h);
      assert [p] + rest == units;
      Regrouped(handed, [p], rest);
    }
  }

  /** A stream of sendable PDUs of at most 4096 octets is handed on whole, however it is split into reads. */
  lemma {:induction false} WithinLimitIsHanded(chunks: seq<seq<octet>>, units: seq<PDU>, h: Handler)
    requires forall i :: 0 <= i < |chunks| ==> |chunks[i]| <= 512
    requires AllSendable(units) && Concat(chunks) == Stream(units)
    requires Small(units) && KeepsOn([], units, h)
    ensures FeedAll(chunks, h).handed == units && FeedAll(chunks, h).verdict == Running
  {
    ScanOfStream(units, [], [], h);
    assert [] + units == units && Stream(units) + [] == Stream(units);
    SplitDoesNotMatter(chunks, h);
    if !FeedAll(chunks, h).verdict.Running? {
      StoppedVerdictIsFinal(chunks, h);
    }
  }

  /** Whatever follows a PDU the handler stops at, and whatever follows octets that are no PDU, is not handed on. */
  lemma {:induction false} NothingIsHandedAfterAStop(chunks: seq<seq<octet>>, units: seq<PDU>, t: seq<octet>,
      h: Handler)
    requires (forall i :: 0 <= i < |chunks| ==> |chunks[i]| <= 512) && AllSendable(units) && Small(units)
    requires KeepsOn([], units, h) && Concat(chunks) == Stream(units) + t
    ensures Decode(t).Malformed? ==> FeedAll(chunks, h).handed == units
    ensures Decode(t).Parsed? && !Oversize(t) && !h(units + [Decode(t).pdu]) ==>
      FeedAll(chunks, h).handed == units + [Decode(t).pdu]
  {
    ScanOfStream(units, t, [], h);
    assert [] + units == units;
    SplitDoesNotMatter(chunks, h);
  }

  // ---------------------------------------------------------------- the reader

  /** The reader of one connection, with the handler's behaviour fixed. */
  class ConnectionReader {
    var buf: seq<octet>
    var handed: seq<PDU>
    var verdict: Verdict
    const handler: Handler

    function State(): Reader
      reads this
    {
      Reader(buf, handed, verdict)
    }

    constructor (h: Handler)
      ensures State() == Start && handler == h
    {
      buf, handed, verdict, handler := [], [], Running, h;
    }

    /** What happens to the octets one Read returned; held is the buffer just after it. */
    method OnRead(tmp: seq<octet>) returns (held: nat)
      requires verdict.Running?
      modifies this
      ensures State() == Feed(old(State()), tmp, handler)
      ensures held == |old(buf)| + |tmp|
    {
      buf := buf + tmp;
      held := |buf|;
      if |buf| >= 12 {
        var declared := GetU32(buf[4..8]) as int + GetU32(buf[8..12]);
        if declared > MAX_INBOUND {
          verdict := ProtocolError;
          return;
        }
      }
      ghost var b, before := buf, handed;
      while true
        invariant verdict.Running?
        invariant Drain(b, before, handler) == Drain(buf, handed, handler)
        decreases |buf|
      {
        var d := PduCodec.Unmarshal(buf);
        match d {
          case Incomplete =>
            break;
          case Malformed(_) =>
            verdict := ProtocolError;
            return;
          case Parsed(p, used) =>
            buf := buf[used..];
            handed := handed + [p];
            if !handler(handed) {
              verdict := Finished;
              return;
            }
        }
      }
    }
  }
}
