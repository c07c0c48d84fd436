/** The delivery client of x2x3/client.go as an object, and what its batches deliver. */
module DeliveryClient {
  import opened Wrappers
  import opened Octets
  import opened Pdu
  import opened PduProperties
  import opened Framing
  import opened Delivery
  import PduCodec

  datatype SendResult = Sent | Lost(error: PduError) | Failed(outcome: Outcome)

  // ------------------------------------------------------------- what a batch holds

  predicate Marshals(entry: Option<PDU>) {
    entry.Some? && Encode(entry.value).Success?
  }

  /** The wire forms of the entries that marshal; nil and refused entries are skipped. */
  function Encodings(batch: seq<Option<PDU>>): seq<seq<octet>> {
    if batch == [] then []
    else
      var last := batch[|batch| - 1];
      Encodings(batch[..|batch| - 1]) + if Marshals(last) then [Encode(last.value).value] else []
  }

  function Kept(batch: seq<Option<PDU>>): seq<PDU> {
    if batch == [] then []
    else
      var last := batch[|batch| - 1];
      Kept(batch[..|batch| - 1]) + if Marshals(last) then [last.value] else []
  }

  function LossOf(entry: Option<PDU>): Option<PduError> {
    if entry.None? then Some(NilPdu)
    else if Encode(entry.value).Failure? then Some(Encode(entry.value).error)
    else None
  }

  /** The error of the first entry that could not be marshalled. */
  function FirstLoss(batch: seq<Option<PDU>>): Option<PduError> {
    if batch == [] then None
    else
      var before := FirstLoss(batch[..|batch| - 1]);
      if before.Some? then before else LossOf(batch[|batch| - 1])
  }

  lemma {:induction false} EndsSnoc(ws: seq<seq<octet>>, w: seq<octet>, offset: nat)
    ensures Ends(ws + [w], offset) == Ends(ws, offset) + [offset + |Join(ws)| + |w|]
  {
    if ws != [] {
      var next := offset + |ws[0]|;
      EndsSnoc(ws[1..], w, next);
      assert (ws + [w])[1..] == ws[1..] + [w];
      assert Ends(ws + [w], offset) == [next] + Ends(ws[1..] + [w], next);
    }
  }

  lemma {:induction false} BatchSnoc(batch: seq<Option<PDU>>, i: nat)
    requires i < |batch|
    ensures var ws, before := Encodings(batch[..i]), FirstLoss(batch[..i]);
      && Encodings(batch[..i + 1]) == (if Marshals(batch[i]) then ws + [Encode(batch[i].value).value] else ws)
      && FirstLoss(batch[..i + 1]) == (if before.Some? then before else LossOf(batch[i]))
  {
    assert batch[..i + 1][..i] == batch[..i];
  }

  lemma {:induction false} AppendUnit(ws: seq<seq<octet>>, w: seq<octet>, buf: seq<octet>, ends: seq<nat>)
    requires buf == Join(ws) && ends == Ends(ws, 0)
    ensures buf + w == Join(ws + [w]) && ends + [|buf + w|] == Ends(ws + [w], 0)
  {
    JoinSnoc(ws, w);
    EndsSnoc(ws, w, 0);
  }

  /** The loop of SendBatch: one buffer, where each unit in it ends, and the first loss. */
  method MarshalBatch(batch: seq<Option<PDU>>)
    returns (buf: seq<octet>, ends: seq<nat>, loss: Option<PduError>)
    ensures buf == Join(Encodings(batch))
    ensures ends == Ends(Encodings(batch), 0)
    ensures loss == FirstLoss(batch)
  {
    buf, ends, loss := [], [], None;
    for i := 0 to |batch|
      invariant buf == Join(Encodings(batch[..i]))
      invariant ends == Ends(Encodings(batch[..i]), 0)
      invariant loss == FirstLoss(batch[..i])
    {
      ghost var ws := Encodings(batch[..i]);
      BatchSnoc(batch, i);
      var bytes := PduCodec.Marshal(batch[i]);
      if bytes.Failure? {
        if loss.None? {
          loss := Some(bytes.error);
        }
      } else {
        AppendUnit(ws, bytes.value, buf, ends);
        buf := buf + bytes.value;
        ends := ends + [|buf|];
      }
    }
    assert batch[..|batch|] == batch;
  }

  // ------------------------------------------------------------------- the client

  class Client {
    var sent: seq<seq<octet>>
    var live: Option<nat>
    var closed: bool
    var unreachable: bool

    function State(): Links
      reads this
    {
      Links(sent, live, closed)
    }

    predicate Valid()
      reads this
    {
      State().Valid() && (closed ==> live.None?)
    }

    constructor ()
      ensures Valid() && State() == Links([], None, false) && !unreachable
    {
      sent, live, closed, unreachable := [], None, false, false;
    }

    method DialLocked(ok: bool)
      requires Valid() && !closed
      modifies this`sent, this`live
      ensures Valid() && State() == Dial(old(State()), ok)
    {
      if ok {
        sent := sent + [[]];
        live := Some(|sent| - 1);
      }
    }

    method WriteLocked(b: seq<octet>, w: Write)
      requires Valid() && live.Some? && Honest(w, b)
      modifies this`sent
      ensures Valid() && State() == WriteLive(old(State()), b, w.accepted)
    {
      sent := sent[live.value := sent[live.value] + b[..w.accepted]];
    }

    method DropLocked()
      requires Valid()
      modifies this`live
      ensures Valid() && State() == Drop(old(State()))
    {
      live := None;
    }

    method DeliverBytes(b: seq<octet>, boundaries: seq<nat>, net: Net) returns (outcome: Outcome)
      requires Valid() && Within(boundaries, 0, |b|) && HonestNet(b, boundaries, net)
      modifies this`sent, this`live
      ensures Valid()
      ensures (State(), outcome) == Deliver(old(State()), b, boundaries, net)
    {
      if closed {
        return AfterClose;
      }
      if live.None? {
        DialLocked(net.dial);
        if live.None? {
          return DialFailed;
        }
      }
      WriteLocked(b, net.first);
      if net.first.ok {
        return Delivered;
      }
      var rest, resuming := ResumeAt(b, boundaries, net.first.accepted);
      var landed := |rest| < |b|;
      DropLocked();
      DialLocked(net.redial);
      if live.None? {
        return DialFailed;
      }
      if |rest| > 0 {
        WriteLocked(rest, net.second);
        if !net.second.ok {
          DropLocked();
          return if resuming && landed then UnitDropped else SendFailed;
        }
      }
      return Delivered;
    }

    method SendBytes(b: seq<octet>, boundaries: seq<nat>, net: Net) returns (outcome: Outcome)
      requires Valid() && Within(boundaries, 0, |b|) && HonestNet(b, boundaries, net)
      modifies this`sent, this`live, this`unreachable
      ensures Valid()
      ensures (State(), outcome) == Deliver(old(State()), b, boundaries, net)
      ensures unreachable == (outcome != Delivered && outcome != UnitDropped)
    {
      outcome := DeliverBytes(b, boundaries, net);
      unreachable := outcome != Delivered && outcome != UnitDropped;
    }

    method SendBatch(batch: seq<Option<PDU>>, net: Net) returns (r: SendResult)
      requires Valid()
      requires HonestNet(Join(Encodings(batch)), Ends(Encodings(batch), 0), net)
      modifies this`sent, this`live, this`unreachable
      ensures Valid()
      ensures r == BatchResult(old(State()), batch, net)
      ensures Encodings(batch) == [] ==> State() == old(State()) && unreachable == old(unreachable)
      ensures Encodings(batch) != [] ==>
        var (links, outcome) := Deliver(old(State()), Join(Encodings(batch)), Ends(Encodings(batch), 0), net);
        State() == links && unreachable == (outcome != Delivered && outcome != UnitDropped)
    {
      if |batch| == 0 {
        return Sent;
      }
      var buf, ends, loss := MarshalBatch(batch);
      NothingToSend(batch);
      if |buf| == 0 {
        return if loss.None? then Sent else Lost(loss.value);
      }
      var outcome := SendBytes(buf, ends, net);
      if outcome != Delivered {
        return Failed(outcome);
      }
      return if loss.None? then Sent else Lost(loss.value);
    }

    /** Answers what closing the held connection answered, and nil when none was held. */
    method Close(answer: Option<string>) returns (err: Option<string>)
      requires Valid()
      modifies this`live, this`closed
      ensures Valid() && State() == old(State()).(live := None, closed := true)
      ensures err == if old(live).Some? then answer else None
    {
      closed := true;
      if live.None? {
        return None;
      }
      live := None;
      err := answer;
    }
  }

  /** What SendBatch answers: a delivery failure first, then the first loss, then success. */
  function BatchResult(l: Links, batch: seq<Option<PDU>>, net: Net): SendResult
    requires l.Valid() && HonestNet(Join(Encodings(batch)), Ends(Encodings(batch), 0), net)
  {
    var ws := Encodings(batch);
    var outcome := if ws == [] then Delivered else Deliver(l, Join(ws), Ends(ws, 0), net).1;
    if outcome != Delivered then Failed(outcome)
    else if FirstLoss(batch).Some? then Lost(FirstLoss(batch).value)
    else Sent
  }

  lemma {:induction false} EncodingsAreNotEmpty(batch: seq<Option<PDU>>)
    ensures NonEmpty(Encodings(batch))
  {
    if batch != [] {
      EncodingsAreNotEmpty(batch[..|batch| - 1]);
      var last := batch[|batch| - 1];
      if Marshals(last) {
        WireLength(last.value);
      }
    }
  }

  lemma {:induction false} NothingToSend(batch: seq<Option<PDU>>)
    ensures Join(Encodings(batch)) == [] <==> Encodings(batch) == []
  {
    EncodingsAreNotEmpty(batch);
    if Encodings(batch) != [] {
      assert Encodings(batch)[0] != [];
    }
  }

  // ----------------------------------------------------------------- main results

  lemma {:induction false} EncodingsAreWires(batch: seq<Option<PDU>>)
    requires AllSendable(Kept(batch))
    ensures Encodings(batch) == Wires(Kept(batch))
  {
    if batch != [] {
      var front, last := batch[..|batch| - 1], batch[|batch| - 1];
      assert Kept(front) == Kept(batch)[..|Kept(front)|];
      EncodingsAreWires(front);
    }
  }

  lemma {:induction false} NoLossKeepsAll(batch: seq<Option<PDU>>)
    requires FirstLoss(batch).None?
    ensures |Kept(batch)| == |batch|
    ensures forall i :: 0 <= i < |batch| ==> batch[i] == Some(Kept(batch)[i])
  {
    if batch != [] {
      NoLossKeepsAll(batch[..|batch| - 1]);
    }
  }

  /**
   A batch reaches the peer as a prefix of the PDUs it keeps, in order and none twice; and
   SendBatch answers nil only if every entry of the batch arrived.
   */
  lemma {:induction false} BatchArrivesAsPrefix(l: Links, batch: seq<Option<PDU>>, net: Net)
    requires l.Valid() && Kept(batch) != [] && AllSendable(Kept(batch))
    requires HonestNet(Join(Encodings(batch)), Ends(Encodings(batch), 0), net)
    ensures Encodings(batch) != []
    ensures var after := Deliver(l, Join(Encodings(batch)), Ends(Encodings(batch), 0), net).0;
      && Gained(l, after) <= Kept(batch)
      && (BatchResult(l, batch, net) == Sent ==>
            |Gained(l, after)| == |batch| &&
            forall i :: 0 <= i < |batch| ==> batch[i] == Some(Gained(l, after)[i]))
  {
    EncodingsAreWires(batch);
    var units, ends := Kept(batch), Ends(Encodings(batch), 0);
    DeliveryIsPrefix(l, units, ends, net);
    DeliveredMeansAll(l, units, ends, net);
    if BatchResult(l, batch, net) == Sent {
      NoLossKeepsAll(batch);
    }
  }

  /** The entry that is reported lost: nil or refused, with none such before it. */
  ghost predicate FirstLost(batch: seq<Option<PDU>>, i: nat, error: PduError) {
    && i < |batch| && (forall j :: 0 <= j < i ==> Marshals(batch[j]))
    && if batch[i].None? then error == NilPdu else Encode(batch[i].value) == Failure(error)
  }

  lemma {:induction false} FirstLostInFront(batch: seq<Option<PDU>>, i: nat, error: PduError)
    requires i + 1 < |batch|
    ensures FirstLost(batch, i, error) <==> FirstLost(batch[..|batch| - 1], i, error)
  {
    var front := batch[..|batch| - 1];
    assert forall j :: 0 <= j <= i ==> front[j] == batch[j];
  }

  lemma {:induction false} FirstLostLast(batch: seq<Option<PDU>>, error: PduError)
    requires batch != []
    ensures var front, last := batch[..|batch| - 1], batch[|batch| - 1];
      (exists i: nat :: FirstLost(batch, i, error)) <==>
        || (exists i: nat :: FirstLost(front, i, error))
        || ((forall j :: 0 <= j < |front| ==> Marshals(front[j])) && LossOf(last) == Some(error))
  {
    var n := |batch| - 1;
    var front := batch[..n];
    if i: nat :| FirstLost(front, i, error) {
      FirstLostInFront(batch, i, error);
    }
    if i: nat :| FirstLost(batch, i, error) && i < n {
      FirstLostInFront(batch, i, error);
    }
    if (forall j :: 0 <= j < |front| ==> Marshals(front[j])) && LossOf(batch[n]) == Some(error) {
      assert FirstLost(batch, n, error);
    }
  }

  lemma {:induction false} FirstLossIs(batch: seq<Option<PDU>>)
    ensures FirstLoss(batch).None? <==> forall i :: 0 <= i < |batch| ==> Marshals(batch[i])
    ensures forall error :: FirstLoss(batch) == Some(error) <==> exists i: nat :: FirstLost(batch, i, error)
  {
    if batch != [] {
      var n := |batch| - 1;
      var front := batch[..n];
      FirstLossIs(front);
      forall error ensures FirstLoss(batch) == Some(error) <==> exists i: nat :: FirstLost(batch, i, error) {
        FirstLostLast(batch, error);
      }
    }
  }

  /**
   What SendBatch answers: the delivery's failure if anything was sent and failed; else the error
   of the first entry that could not be sent; and nil exactly if every entry could and arrived.
   */
  lemma {:induction false} BatchAnswer(l: Links, batch: seq<Option<PDU>>, net: Net)
    requires l.Valid() && HonestNet(Join(Encodings(batch)), Ends(Encodings(batch), 0), net)
    ensures var ws, r := Encodings(batch), BatchResult(l, batch, net);
      var failed := ws != [] && Deliver(l, Join(ws), Ends(ws, 0), net).1 != Delivered;
      && (failed <==> r.Failed?)
      && (r.Failed? ==> r.outcome == Deliver(l, Join(ws), Ends(ws, 0), net).1)
      && (r == Sent <==> !failed && forall i :: 0 <= i < |batch| ==> Marshals(batch[i]))
      && (forall error :: r == Lost(error) <==> !failed && exists i: nat :: FirstLost(batch, i, error))
  {
    FirstLossIs(batch);
  }

  /** A batch nothing of which arrived, though something was sent, leaves the destination unreachable. */
  lemma {:induction false} NothingArrivedIsFailure(l: Links, batch: seq<Option<PDU>>, net: Net)
    requires l.Valid() && Kept(batch) != [] && AllSendable(Kept(batch))
    requires HonestNet(Join(Encodings(batch)), Ends(Encodings(batch), 0), net)
    requires Gained(l, Deliver(l, Join(Encodings(batch)), Ends(Encodings(batch), 0), net).0) == []
    ensures BatchResult(l, batch, net) in {Failed(AfterClose), Failed(DialFailed), Failed(SendFailed)}
  {
    EncodingsAreWires(batch);
    NothingLandedIsNoDrop(l, Kept(batch), Ends(Encodings(batch), 0), net);
  }
}
