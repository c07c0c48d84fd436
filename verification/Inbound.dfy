/**
 What a delivery connection does with what its peer sends, x2x3/keepalive.go: the reader's octets
 become PDUs, and each PDU an acknowledgement to consider, a Keepalive to answer, something to
 ignore or a protocol error.
 */
module Inbound {
  import opened Wrappers
  import opened Octets
  import opened Pdu
  import opened PduProperties
  import opened Framing
  import opened Delivery
  import opened Keepalive
  import opened Connection
  import opened ConnectionProperties
  import opened ConnectionSteps
  import SR = StreamReader

  datatype Reaction = Considers(number: u32) | Answers(number: u32) | Ignores | Faults

  /** handleInbound, up to the step it leads to. */
  method React(p: PDU) returns (r: Reaction)
    ensures r == ReactionTo(p)
  {
    if p.typ == TYPE_KEEPALIVE_ACK {
      var number := KeepaliveSequence(p);
      return if number.None? then Ignores else Considers(number.value);
    }
    if p.typ == TYPE_KEEPALIVE {
      var number := KeepaliveSequence(p);
      return if number.None? then Ignores else Answers(number.value);
    }
    return Faults;
  }

  function ReactionTo(p: PDU): Reaction {
    var number := SequenceIn(p.attributes);
    if p.typ != TYPE_KEEPALIVE && p.typ != TYPE_KEEPALIVE_ACK then Faults
    else if number.None? then Ignores
    else if p.typ == TYPE_KEEPALIVE then Answers(number.value)
    else Considers(number.value)
  }

  /** The step of the connection's a PDU leads to, given how an answer's write goes. */
  function StepFor(i: nat, p: PDU, w: Write): Option<Action> {
    match ReactionTo(p)
    case Considers(number) => Some(Acknowledge(i, number))
    case Answers(number) => Some(AnswerKeepalive(i, number, w))
    case Ignores => None
    case Faults => Some(ProtocolFault(i))
  }

  /** The reader goes on unless the PDU just handed on was a fault. */
  function Reading(): SR.Handler {
    (handed: seq<PDU>) => handed == [] || !ReactionTo(handed[|handed| - 1]).Faults?
  }

  /** A PDU is a fault exactly if it is neither a Keepalive nor an acknowledgement, product included. */
  lemma {:induction false} FaultsExactlyWhen(p: PDU, i: nat, w: Write)
    ensures ReactionTo(p).Faults? <==> p.typ != 3 && p.typ != 4
    ensures StepFor(i, p, w) == Some(ProtocolFault(i)) <==> p.typ != 3 && p.typ != 4
  {
  }

  lemma {:induction false} WelcomeIsRead(units: seq<PDU>)
    requires forall k :: 0 <= k < |units| ==> !ReactionTo(units[k]).Faults?
    ensures SR.KeepsOn([], units, Reading())
  {
    forall k: nat | k < |units| ensures SR.GoesOn([], units, k, Reading()) {
      assert ([] + units[..k + 1])[k] == units[k];
    }
  }

  ghost predicate Exchanged(p: PDU) {
    exists number: u32 :: p == KeepaliveOf(number) || p == AckOf(number)
  }

  /** What an element of this kind sends is understood by its peer of the same kind: number and all. */
  lemma {:induction false} ExchangedIsUnderstood(number: u32)
    ensures ReactionTo(KeepaliveOf(number)) == Answers(number) && ReactionTo(AckOf(number)) == Considers(number)
  {
    KeepalivesAreSendable(TYPE_KEEPALIVE, number);
    KeepalivesAreSendable(TYPE_KEEPALIVE_ACK, number);
  }

  lemma {:induction false} ExchangedIsSmall(p: PDU)
    requires Exchanged(p)
    ensures Sendable(p) && |Wire(p)| == 48 && !ReactionTo(p).Faults?
  {
    var number: u32 :| p == KeepaliveOf(number) || p == AckOf(number);
    KeepalivesAreSendable(TYPE_KEEPALIVE, number);
    KeepalivesAreSendable(TYPE_KEEPALIVE_ACK, number);
  }

  /** Keepalives and acknowledgements of any numbers, in any order and however split, are all read, in order. */
  lemma {:induction false} PeersKeepalivesAreRead(chunks: seq<seq<octet>>, units: seq<PDU>)
    requires forall i :: 0 <= i < |chunks| ==> |chunks[i]| <= 512
    requires forall k :: 0 <= k < |units| ==> Exchanged(units[k])
    ensures AllSendable(units)
    ensures SR.Concat(chunks) == Stream(units) ==>
      SR.FeedAll(chunks, Reading()).handed == units && SR.FeedAll(chunks, Reading()).verdict == SR.Running
  {
    forall k | 0 <= k < |units|
      ensures Sendable(units[k]) && !ReactionTo(units[k]).Faults? && |Wire(units[k])| <= 4096
    {
      ExchangedIsSmall(units[k]);
    }
    if SR.Concat(chunks) == Stream(units) {
      WelcomeIsRead(units);
      SR.WithinLimitIsHanded(chunks, units, Reading());
    }
  }

  /** A Keepalive read on the held connection puts its acknowledgement on the wire. */
  lemma {:induction false} PeersKeepaliveIsAnswered(s: State, i: nat, number: u32, w: Write)
    requires Inv(s) && s.links.live == Some(i) && !s.loops[i].signalling && w == Write(48, true)
    ensures var step := StepFor(i, KeepaliveOf(number), w);
      && step.Some? && Enabled(s, step.value)
      && var after := Apply(s, step.value);
         i < |after.links.sent| && DecodeAll(after.links.sent[i]) == DecodeAll(s.links.sent[i]) + [AckOf(number)]
  {
    ExchangedIsUnderstood(number);
    AnswerGoesOut(s, i, number, w);
  }

  /** An acknowledgement of the last number issued, read while none above it was accepted, is accepted. */
  lemma {:induction false} PeersAcknowledgementIsAccepted(s: State, i: nat, number: u32, w: Write)
    requires Inv(s) && i < |s.loops| && !s.loops[i].signalling && s.loops[i].issued < 0x1_0000_0000
    requires number + 1 == s.loops[i].issued && number !in s.loops[i].accepted
    ensures var step := StepFor(i, AckOf(number), w);
      && step.Some? && Enabled(s, step.value)
      && Apply(s, step.value).loops[i].accepted == s.loops[i].accepted + [number]
  {
    ExchangedIsUnderstood(number);
    assert LoopOk(s, i);
    forall m | 0 <= m < |s.loops[i].accepted| ensures s.loops[i].accepted[m] < number {
      assert s.loops[i].accepted[m] in s.loops[i].accepted;
    }
    AcceptedExactlyWhen(s, i, number);
  }

  /** Behind Keepalives and acknowledgements, product or any other PDU is handed on and nothing after it is. */
  lemma {:induction false} FaultEndsTheReader(chunks: seq<seq<octet>>, units: seq<PDU>, p: PDU, rest: seq<octet>)
    requires forall i :: 0 <= i < |chunks| ==> |chunks[i]| <= 512
    requires forall k :: 0 <= k < |units| ==> Exchanged(units[k])
    requires Sendable(p) && ReactionTo(p).Faults? && |Wire(p)| <= 4096
    ensures AllSendable(units)
    ensures SR.Concat(chunks) == Stream(units) + (Wire(p) + rest) ==>
      SR.FeedAll(chunks, Reading()).handed == units + [p]
  {
    forall k | 0 <= k < |units|
      ensures Sendable(units[k]) && !ReactionTo(units[k]).Faults? && |Wire(units[k])| <= 4096
    {
      ExchangedIsSmall(units[k]);
    }
    WelcomeIsRead(units);
    DecodesFirst(p, rest);
    FaultIsRefused(units, p);
    if SR.Concat(chunks) == Stream(units) + (Wire(p) + rest) {
      SR.NothingIsHandedAfterAStop(chunks, units, Wire(p) + rest, Reading());
    }
  }

  lemma {:induction false} FaultIsRefused(units: seq<PDU>, p: PDU)
    requires ReactionTo(p).Faults?
    ensures !Reading()(units + [p])
  {
    assert (units + [p])[|units + [p]| - 1] == p;
  }

  lemma {:induction false} DecodesFirst(p: PDU, rest: seq<octet>)
    requires Sendable(p) && |Wire(p)| <= 4096
    ensures Decode(Wire(p) + rest) == Parsed(p, |Wire(p)|) && !SR.Oversize(Wire(p) + rest)
  {
    RoundTrip(p, rest);
  }
}
