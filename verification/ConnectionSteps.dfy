/**
 What the steps of a connection's timer, reader and client do: the connection that expiry or a
 protocol error ends, the Keepalive a timer puts on the wire, the acknowledgement a reader
 answers with, and the acknowledgements that refresh the deadline.
 */
module ConnectionSteps {
  import opened Wrappers
  import opened Octets
  import opened Pdu
  import opened Framing
  import opened Delivery
  import opened Keepalive
  import opened Connection
  import opened ConnectionProperties

  // ------------------------------------------------------------------ ending a connection

  /** A connection just dialled: it has taken nothing and its timer, if any, has issued nothing. */
  ghost predicate JustDialled(s: State, i: nat) {
    && i < |s.links.sent| == |s.loops| && s.links.live == Some(i) && s.links.sent[i] == []
    && s.loops[i].issued == 0 && s.loops[i].accepted == [] && !s.loops[i].pending
    && (s.loops[i].looping <==> s.keepalives)
  }

  /**
   A timer that ran out of time lets go of its connection and stops; if that connection was the
   one held a new one is dialled, once, and nothing is held if that fails.
   */
  lemma {:induction false} ExpiryReplaces(s: State, i: nat, dial: bool)
    requires Wellformed(s) && i < |s.loops| && s.loops[i].looping && !s.loops[i].pending
    ensures Enabled(s, Expire(i, dial))
    ensures var after := Apply(s, Expire(i, dial));
      && after.links.live != Some(i) && !after.loops[i].looping
      && (s.links.live == Some(i) && dial ==>
            JustDialled(after, |s.links.sent|) && |after.links.sent| == |s.links.sent| + 1)
      && (s.links.live == Some(i) && !dial ==> after.links.live == None && after.links.sent == s.links.sent)
      && (s.links.live != Some(i) ==> after.links == s.links)
  {
  }

  /** A protocol error drops the connection it came on, and no other. */
  lemma {:induction false} FaultDrops(s: State, i: nat)
    requires Wellformed(s) && i < |s.loops|
    ensures Enabled(s, ProtocolFault(i))
    ensures var after := Apply(s, ProtocolFault(i));
      && after.links.sent == s.links.sent && after.links.closed == s.links.closed
      && after.links.live == if s.links.live == Some(i) then None else s.links.live
  {
  }

  /** Whatever happens later, a connection that expired or broke the protocol is never written again. */
  lemma {:induction false} EndedIsFinal(s: State, ending: Action, actions: seq<Action>)
    requires Wellformed(s) && Enabled(s, ending) && (ending.Expire? || ending.ProtocolFault?)
    requires Run(Apply(s, ending), actions)
    ensures var t := Exec(Apply(s, ending), actions);
      && ending.i < |t.links.sent| && t.links.sent[ending.i] == s.links.sent[ending.i]
      && t.links.live != Some(ending.i)
  {
    DroppedIsFinal(Apply(s, ending), actions, ending.i);
  }

  /** Close lets go of the connection and is final. */
  lemma {:induction false} CloseLetsGo(s: State, actions: seq<Action>)
    requires Wellformed(s) && Run(Apply(s, Close), actions)
    ensures var t := Exec(Apply(s, Close), actions);
      t.links == Links(s.links.sent, None, true)
  {
    ClosedIsFinal(Apply(s, Close), actions);
  }

  // --------------------------------------------------------------------- Keepalives out

  lemma {:induction false} WrittenWhole(l: Links, i: nat, p: PDU, w: Write)
    requires l.Valid() && l.live == Some(i) && Sendable(p) && w == Write(|Wire(p)|, true)
    ensures Honest(w, Wire(p)) && WriteOn(l, i, Wire(p), w) == l.(sent := l.sent[i := l.sent[i] + Wire(p)])
  {
    assert Wire(p)[..|Wire(p)|] == Wire(p);
  }

  lemma {:induction false} DecodesOneMore(sent: seq<octet>, p: PDU)
    requires Whole(sent) && Sendable(p)
    ensures DecodeAll(sent + Wire(p)) == DecodeAll(sent) + [p]
  {
    var units :| AllSendable(units) && sent == Stream(units);
    assert [p][1..] == [];
    StreamCons([p]);
    assert Stream([p]) == Wire(p);
    StreamOfConcat(units, [p]);
    DecodeAllWhole(units);
    DecodeAllWhole(units + [p]);
  }

  lemma {:induction false} PendingGoesOut(s: State, i: nat, w: Write)
    requires Inv(s) && s.links.live == Some(i) && s.loops[i].looping && s.loops[i].pending && w == Write(48, true)
    ensures Enabled(s, WriteKeepalive(i, w))
    ensures var after := Apply(s, WriteKeepalive(i, w));
      var number := Number(|TimerNumbers(s.log[i])|);
      && i < |after.links.sent| == |after.loops| && after.links.live == Some(i)
      && DecodeAll(after.links.sent[i]) == DecodeAll(s.links.sent[i]) + [KeepaliveOf(number)]
      && after.loops[i] == s.loops[i].(pending := false)
  {
    assert LoopOk(s, i) && LinkOk(s.links, s.log, i);
    var number := Number(s.loops[i].issued - 1);
    KeepalivesAreSendable(TYPE_KEEPALIVE, number);
    WrittenWhole(s.links, i, KeepaliveOf(number), w);
    DecodesOneMore(s.links.sent[i], KeepaliveOf(number));
  }

  /**
   A timer's turn on the connection held: it takes the next number and writes it, and a peer
   decodes one Keepalive more, carrying how many the timer wrote before it.
   */
  lemma {:induction false} KeepaliveGoesOut(s: State, i: nat, w: Write)
    requires Inv(s) && s.links.live == Some(i) && s.loops[i].looping && !s.loops[i].pending
    requires w == Write(48, true)
    ensures Run(s, [Take(i), WriteKeepalive(i, w)])
    ensures var after := Exec(s, [Take(i), WriteKeepalive(i, w)]);
      var number := Number(|TimerNumbers(s.log[i])|);
      && i < |after.links.sent| == |after.loops| && after.links.live == Some(i)
      && DecodeAll(after.links.sent[i]) == DecodeAll(s.links.sent[i]) + [KeepaliveOf(number)]
      && after.loops[i].looping && !after.loops[i].pending && after.loops[i].issued == s.loops[i].issued + 1
  {
    var a, b := Take(i), WriteKeepalive(i, w);
    assert LoopOk(s, i) && LinkOk(s.links, s.log, i);
    var taken := Apply(s, a);
    StepKeeps(s, a);
    PendingGoesOut(taken, i, w);
    StepKeeps(taken, b);
    TwoSteps(s, a, taken, b, Apply(taken, b));
  }

  lemma {:induction false} TwoSteps(s: State, a: Action, between: State, b: Action, after: State)
    requires Wellformed(s) && Enabled(s, a) && between == Apply(s, a)
    requires Wellformed(between) && Enabled(between, b) && after == Apply(between, b) && Wellformed(after)
    ensures Run(s, [a, b]) && Exec(s, [a, b]) == after
  {
    assert [a, b][1..] == [b] && [b][1..] == [];
    assert Run(after, []) && Exec(after, []) == after;
    assert Run(between, [b]) && Exec(between, [b]) == after;
  }

  /** A timer whose Keepalive finds its connection replaced, or fails to write it, stops. */
  lemma {:induction false} KeepaliveStops(s: State, i: nat, w: Write)
    requires Wellformed(s) && Enabled(s, WriteKeepalive(i, w)) && (s.links.live != Some(i) || !w.ok)
    ensures var after := Apply(s, WriteKeepalive(i, w));
      && i < |after.loops| && !after.loops[i].looping && !after.loops[i].pending && after.links.live != Some(i)
      && (s.links.live != Some(i) ==> after.links == s.links)
  {
  }

  /** A timer that finds its connection replaced while it waits stops, and nothing else changes. */
  lemma {:induction false} StaleTimerStops(s: State, i: nat)
    requires Wellformed(s) && i < |s.loops| && s.loops[i].looping && !s.loops[i].pending && s.links.live != Some(i)
    ensures Enabled(s, LoopStops(i))
    ensures var after := Apply(s, LoopStops(i));
      after.links == s.links && after.loops[i] == s.loops[i].(looping := false)
  {
  }

  /** A Keepalive of the peer's is answered with its own number. */
  lemma {:induction false} AnswerGoesOut(s: State, i: nat, number: u32, w: Write)
    requires Inv(s) && s.links.live == Some(i) && !s.loops[i].signalling && w == Write(48, true)
    ensures Enabled(s, AnswerKeepalive(i, number, w))
    ensures var after := Apply(s, AnswerKeepalive(i, number, w));
      && i < |after.links.sent| && after.links.live == Some(i)
      && DecodeAll(after.links.sent[i]) == DecodeAll(s.links.sent[i]) + [AckOf(number)]
  {
    assert LinkOk(s.links, s.log, i);
    KeepalivesAreSendable(TYPE_KEEPALIVE_ACK, number);
    WrittenWhole(s.links, i, AckOf(number), w);
    DecodesOneMore(s.links.sent[i], AckOf(number));
  }

  // ----------------------------------------------------------------- acknowledgements in

  /**
   An acknowledgement is accepted exactly if its number was issued and is above every number
   accepted before it, on a connection that has issued fewer than 2^32.
   */
  lemma {:induction false} AcceptedExactlyWhen(s: State, i: nat, number: u32)
    requires Inv(s) && i < |s.loops| && !s.loops[i].signalling && s.loops[i].issued < 0x1_0000_0000
    ensures Enabled(s, Acknowledge(i, number))
    ensures var l, after := s.loops[i], Apply(s, Acknowledge(i, number)).loops[i];
      if number < l.issued && forall m :: 0 <= m < |l.accepted| ==> l.accepted[m] < number
      then after.accepted == l.accepted + [number] && after.signalling
      else after == l
  {
    assert LoopOk(s, i);
    var accepted := s.loops[i].accepted;
    if accepted != [] {
      var last := |accepted| - 1;
      assert forall m :: 0 <= m < last ==> accepted[m] < accepted[last];
    }
  }

  /** An accepted acknowledgement reaches a waiting timer and refreshes its deadline once. */
  lemma {:induction false} AcceptedRefreshes(s: State, i: nat)
    requires Wellformed(s) && i < |s.loops| && s.loops[i].signalling && s.loops[i].looping && !s.loops[i].pending
    ensures Run(s, [Signal(i), Refresh(i)])
    ensures var after := Exec(s, [Signal(i), Refresh(i)]);
      && after.links == s.links && i < |after.loops|
      && after.loops[i] == s.loops[i].(signalling := false, slot := false, refreshes := s.loops[i].refreshes + 1)
  {
    var signalled := Apply(s, Signal(i));
    TwoSteps(s, Signal(i), signalled, Refresh(i), Apply(signalled, Refresh(i)));
  }
}
