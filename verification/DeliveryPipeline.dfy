/**
 The asynchronous queue in front of a delivery client: every Send call, the worker, the client's
 connections with their timers and readers, and Close, interleaved. What a peer decodes is traced
 back to the Send calls it came from.
 */
module DeliveryPipeline {
  import opened Wrappers
  import opened Octets
  import opened Pdu
  import opened Framing
  import opened Delivery
  import opened DeliveryClient
  import Q = AsyncQueue
  import C = Connection
  import P = ConnectionProperties
  import R = ConnectionRuns

  datatype System = System(queue: Q.Machine, client: C.State)

  /** A step of the queue's, one of the client's, or one that both take together. */
  datatype Step =
    | OfQueue(q: Q.Action)
    | OfClient(c: C.Action)
    | HandBatch(ends: seq<nat>, net: Net)
    | CloseBoth(answer: Option<string>)

  function QueuePart(step: Step): Option<Q.Action> {
    match step
    case OfQueue(q) => Some(q)
    case OfClient(_) => None
    case HandBatch(_, _) => Some(Q.Deliver)
    case CloseBoth(answer) => Some(Q.CloseInner(answer))
  }

  /** Only the entries that marshal are delivered, and nothing is if there are none. */
  function ClientPart(batch: seq<Q.Item>, step: Step): Option<C.Action> {
    match step
    case OfQueue(_) => None
    case OfClient(c) => Some(c)
    case HandBatch(ends, net) => if Kept(batch) == [] then None else Some(C.Deliver(Kept(batch), ends, net))
    case CloseBoth(_) => Some(C.Close)
  }

  /** The queue alone delivers on the client and closes it. */
  predicate Shared(step: Step) {
    && (step.OfQueue? ==> !step.q.Deliver? && !step.q.CloseInner?)
    && (step.OfClient? ==> !step.c.Deliver? && !step.c.Close?)
  }

  function Batch(s: System): seq<Q.Item> {
    Q.Pending(s.queue.worker)
  }

  ghost predicate Enabled(s: System, step: Step)
    requires C.Wellformed(s.client)
  {
    var q, c := QueuePart(step), ClientPart(Batch(s), step);
    Shared(step) && (q.Some? ==> Q.Enabled(s.queue, q.value)) && (c.Some? ==> C.Enabled(s.client, c.value))
  }

  ghost function Apply(s: System, step: Step): System
    requires C.Wellformed(s.client) && Enabled(s, step)
  {
    var q, c := QueuePart(step), ClientPart(Batch(s), step);
    System(if q.None? then s.queue else Q.Apply(s.queue, q.value),
      if c.None? then s.client else C.Apply(s.client, c.value))
  }

  // ------------------------------------------------------------- drawn from, in order

  ghost predicate Rising(picks: seq<nat>) {
    forall j, k :: 0 <= j < k < |picks| ==> picks[j] < picks[k]
  }

  /** Each PDU is the item at its pick, and the picks rise: in order, and no item twice. */
  ghost predicate Picked(got: seq<PDU>, items: seq<Q.Item>, picks: seq<nat>) {
    && |picks| == |got| && Rising(picks)
    && forall k :: 0 <= k < |got| ==> picks[k] < |items| && items[picks[k]] == Some(got[k])
  }

  ghost predicate DrawnFrom(got: seq<PDU>, items: seq<Q.Item>) {
    exists picks :: Picked(got, items, picks)
  }

  function Shift(picks: seq<nat>, offset: nat): (r: seq<nat>)
    ensures |r| == |picks| && forall k :: 0 <= k < |r| ==> r[k] == picks[k] + offset
  {
    seq(|picks|, k requires 0 <= k < |picks| => picks[k] + offset)
  }

  lemma {:induction false} DrawnFromBoth(a: seq<PDU>, items: seq<Q.Item>, b: seq<PDU>, more: seq<Q.Item>)
    requires DrawnFrom(a, items) && DrawnFrom(b, more)
    ensures DrawnFrom(a + b, items + more)
  {
    var p :| Picked(a, items, p);
    var q :| Picked(b, more, q);
    assert Picked(a + b, items + more, p + Shift(q, |items|));
  }

  lemma {:induction false} DrawnFromMore(a: seq<PDU>, items: seq<Q.Item>, more: seq<Q.Item>)
    requires DrawnFrom(a, items)
    ensures DrawnFrom(a, items + more)
  {
    var p :| Picked(a, items, p);
    assert Picked(a, items + more, p);
  }

  lemma {:induction false} PrefixIsDrawn(a: seq<PDU>, items: seq<Q.Item>, n: nat)
    requires DrawnFrom(a, items) && n <= |a|
    ensures DrawnFrom(a[..n], items)
  {
    var p :| Picked(a, items, p);
    assert Picked(a[..n], items, p[..n]);
  }

  lemma {:induction false} NothingIsDrawn(items: seq<Q.Item>)
    ensures DrawnFrom([], items)
  {
    assert Picked([], items, []);
  }

  lemma {:induction false} OneIsDrawn(p: PDU)
    ensures DrawnFrom([p], [Some(p)])
  {
    assert Picked([p], [Some(p)], [0]);
  }

  lemma {:induction false} KeptIsDrawn(batch: seq<Q.Item>)
    ensures DrawnFrom(Kept(batch), batch)
  {
    if batch == [] {
      NothingIsDrawn(batch);
    } else {
      var n := |batch| - 1;
      var front, last := batch[..n], batch[n];
      KeptIsDrawn(front);
      assert front + [last] == batch;
      if Marshals(last) {
        OneIsDrawn(last.value);
        DrawnFromBoth(Kept(front), front, [last.value], [last]);
      } else {
        DrawnFromMore(Kept(front), front, [last]);
        assert Kept(front) + [] == Kept(front);
      }
    }
  }

  ghost predicate Below(picks: seq<nat>, bound: nat) {
    forall k :: 0 <= k < |picks| ==> picks[k] < bound
  }

  lemma {:induction false} PickedFront(got: seq<PDU>, items: seq<Q.Item>, picks: seq<nat>, n: nat)
    requires Picked(got, items, picks) && n + 1 == |got|
    ensures Picked(got[..n], items, picks[..n]) && Below(picks[..n], picks[n])
  {
  }

  lemma {:induction false} PickedSnoc(got: seq<PDU>, items: seq<Q.Item>, picks: seq<nat>, p: PDU, i: nat)
    requires Picked(got, items, picks) && i < |items| && items[i] == Some(p) && Below(picks, i)
    ensures Picked(got + [p], items, picks + [i])
  {
  }

  lemma {:induction false} BelowSnoc(picks: seq<nat>, i: nat, bound: nat)
    requires Below(picks, i) && i < bound
    ensures Below(picks, bound) && Below(picks + [i], bound)
  {
  }

  /** Leaving PDUs out leaves their picks out. */
  lemma {:induction false} ProductPicks(got: seq<PDU>, items: seq<Q.Item>, picks: seq<nat>, bound: nat)
      returns (left: seq<nat>)
    requires Picked(got, items, picks) && Below(picks, bound)
    ensures Picked(R.Product(got), items, left) && Below(left, bound)
  {
    if got == [] {
      left := [];
    } else {
      var n := |got| - 1;
      var i := picks[n];
      PickedFront(got, items, picks, n);
      var front := ProductPicks(got[..n], items, picks[..n], i);
      BelowSnoc(front, i, bound);
      if R.IsProduct(got[n]) {
        PickedSnoc(R.Product(got[..n]), items, front, got[n], i);
        left := front + [i];
      } else {
        assert R.Product(got[..n]) + [] == R.Product(got[..n]);
        left := front;
      }
    }
  }

  // -------------------------------------------------------------------------- every run

  ghost predicate Inv(s: System) {
    Q.Inv(s.queue) && P.Inv(s.client) && DrawnFrom(R.FromCallers(s.client.log), Q.Handed(s.queue.log))
  }

  lemma {:induction false} HandedBy(m: Q.Machine, a: Q.Action)
    requires Q.Enabled(m, a)
    ensures Q.Handed(Q.Apply(m, a).log) == Q.Handed(m.log) + if a.Deliver? then m.worker.batch else []
  {
    var log := Q.Apply(m, a).log;
    assert Q.Handed(m.log) + [] == Q.Handed(m.log);
    if a.Deliver? || a.CloseInner? {
      assert log[..|m.log|] == m.log;
    }
  }

  lemma {:induction false} LandedIsDrawn(s: C.State, batch: seq<Q.Item>, ends: seq<nat>, net: Net)
    requires C.Wellformed(s) && C.Enabled(s, C.Deliver(Kept(batch), ends, net))
    ensures DrawnFrom(R.LandedBy(s, C.Deliver(Kept(batch), ends, net)), batch)
  {
    DeliveryIsPrefix(s.links, Kept(batch), ends, net);
    KeptIsDrawn(batch);
    PrefixIsDrawn(Kept(batch), batch, Landed(Wires(Kept(batch)), s.links, net));
  }

  /** Handing a batch over adds what landed of it on one side and the batch on the other. */
  lemma {:induction false} BatchIsDrawn(s: System, ends: seq<nat>, net: Net)
    requires Inv(s) && Enabled(s, HandBatch(ends, net))
    ensures var t := Apply(s, HandBatch(ends, net));
      DrawnFrom(R.FromCallers(t.client.log), Q.Handed(t.queue.log))
  {
    var batch, before := Batch(s), R.FromCallers(s.client.log);
    HandedBy(s.queue, Q.Deliver);
    if Kept(batch) == [] {
      DrawnFromMore(before, Q.Handed(s.queue.log), batch);
    } else {
      var a := C.Deliver(Kept(batch), ends, net);
      R.StepLands(s.client, a);
      LandedIsDrawn(s.client, batch, ends, net);
      DrawnFromBoth(before, Q.Handed(s.queue.log), R.LandedBy(s.client, a), batch);
    }
  }

  lemma {:induction false} OtherStepsAreDrawn(s: System, step: Step)
    requires Inv(s) && Enabled(s, step) && !step.HandBatch?
    ensures var t := Apply(s, step);
      DrawnFrom(R.FromCallers(t.client.log), Q.Handed(t.queue.log))
  {
    var q, c := QueuePart(step), ClientPart(Batch(s), step);
    if q.Some? {
      HandedBy(s.queue, q.value);
      assert Q.Handed(s.queue.log) + [] == Q.Handed(s.queue.log);
    }
    if c.Some? {
      R.StepLands(s.client, c.value);
      assert R.FromCallers(s.client.log) + [] == R.FromCallers(s.client.log);
    }
  }

  lemma {:induction false} StepKeeps(s: System, step: Step)
    requires Inv(s) && Enabled(s, step)
    ensures Inv(Apply(s, step))
  {
    var q, c := QueuePart(step), ClientPart(Batch(s), step);
    if q.Some? {
      Q.StepKeeps(s.queue, q.value);
    }
    if c.Some? {
      P.StepKeeps(s.client, c.value);
    }
    if step.HandBatch? {
      BatchIsDrawn(s, step.ends, step.net);
    } else {
      OtherStepsAreDrawn(s, step);
    }
  }

  ghost predicate Run(s: System, steps: seq<Step>)
    decreases |steps|
  {
    C.Wellformed(s.client) && (steps != [] ==> Enabled(s, steps[0]) && Run(Apply(s, steps[0]), steps[1..]))
  }

  ghost function Exec(s: System, steps: seq<Step>): System
    requires Run(s, steps)
    decreases |steps|
  {
    if steps == [] then s else Exec(Apply(s, steps[0]), steps[1..])
  }

  lemma {:induction false} RunKeeps(s: System, steps: seq<Step>)
    requires Inv(s) && Run(s, steps)
    ensures Inv(Exec(s, steps))
    decreases |steps|
  {
    if steps != [] {
      StepKeeps(s, steps[0]);
      RunKeeps(Apply(s, steps[0]), steps[1..]);
    }
  }

  function Start(depth: nat, keepalives: bool): System {
    System(Q.Fresh(depth), P.Initial(keepalives))
  }

  lemma {:induction false} StartIsInv(depth: nat, keepalives: bool)
    ensures Inv(Start(depth, keepalives))
  {
    Q.FreshIsInv(depth);
    R.NewClient(keepalives);
    NothingIsDrawn(Q.Handed(Q.Fresh(depth).log));
  }

  lemma {:induction false} ItemsAt(entries: seq<Q.Entry>, k: nat)
    requires k < |entries|
    ensures |Q.ItemsOf(entries)| == |entries| && Q.ItemsOf(entries)[k] == entries[k].item
  {
    var n := |entries| - 1;
    if n > 0 {
      ItemsAt(entries[..n], if k < n then k else 0);
    }
  }

  /** The product a peer has, decoding every connection in the order they were dialled. */
  function PeersProduct(s: System): seq<PDU> {
    R.Product(R.Received(s.client.links.sent))
  }

  /** Each PDU is a different Send call's, and the calls are in the order they were accepted. */
  ghost predicate Traced(got: seq<PDU>, m: Q.Machine, picks: seq<nat>) {
    && |picks| == |got| && Rising(picks)
    && forall k :: 0 <= k < |got| ==>
      && picks[k] < |m.accepted| && m.accepted[picks[k]].call < |m.calls|
      && m.calls[m.accepted[picks[k]].call] == Q.Call(Some(got[k]), Q.Accepted)
  }

  lemma {:induction false} PicksAreTraced(got: seq<PDU>, m: Q.Machine, picks: seq<nat>)
    requires Q.Accounted(m.calls, m.accepted) && Picked(got, Q.ItemsOf(m.accepted), picks)
    ensures Traced(got, m, picks)
  {
    forall k | 0 <= k < |got|
      ensures picks[k] < |m.accepted| && m.accepted[picks[k]].item == Some(got[k])
    {
      if m.accepted != [] {
        ItemsAt(m.accepted, if picks[k] < |m.accepted| then picks[k] else 0);
      }
    }
  }

  lemma {:induction false} ProductIsTraced(s: System) returns (picks: seq<nat>)
    requires Inv(s)
    ensures Traced(PeersProduct(s), s.queue, picks)
  {
    var m, got := s.queue, R.FromCallers(s.client.log);
    R.PeersHaveCallersProduct(s.client);
    DrawnFromMore(got, Q.Handed(m.log), Q.Held(m.worker, m.queue));
    var all :| Picked(got, Q.ItemsOf(m.accepted), all);
    picks := ProductPicks(got, Q.ItemsOf(m.accepted), all, |Q.ItemsOf(m.accepted)|);
    PicksAreTraced(R.Product(got), m, picks);
  }

  /** No two accepted entries are one call's. */
  ghost predicate OncePerCall(m: Q.Machine) {
    forall j, k :: 0 <= j < k < |m.accepted| ==> m.accepted[j].call != m.accepted[k].call
  }

  lemma {:induction false} RunIsTraced(start: System, steps: seq<Step>) returns (picks: seq<nat>)
    requires Inv(start) && Run(start, steps)
    ensures var s := Exec(start, steps); Traced(PeersProduct(s), s.queue, picks) && OncePerCall(s.queue)
  {
    RunKeeps(start, steps);
    picks := ProductIsTraced(Exec(start, steps));
  }

  /**
   Over every interleaving of Sends, worker, connections and Close: the product a peer decodes
   over all connections is drawn from the Send calls that were accepted, in the order they were
   accepted, no call's PDU twice, whatever the network took, tore or lost.
   */
  lemma {:induction false} PeersGetWhatWasAccepted(depth: nat, keepalives: bool, steps: seq<Step>)
      returns (picks: seq<nat>)
    requires Run(Start(depth, keepalives), steps)
    ensures var s := Exec(Start(depth, keepalives), steps);
      Traced(PeersProduct(s), s.queue, picks) && OncePerCall(s.queue)
  {
    StartIsInv(depth, keepalives);
    picks := RunIsTraced(Start(depth, keepalives), steps);
  }

  // ------------------------------------------------------------- when nothing is lost

  /** Every batch the run hands over is answered nil. */
  ghost predicate AllDelivered(s: System, steps: seq<Step>)
    requires Run(s, steps)
    decreases |steps|
  {
    steps != [] ==> StepDelivers(s, steps[0]) && AllDelivered(Apply(s, steps[0]), steps[1..])
  }

  ghost predicate StepDelivers(s: System, step: Step)
    requires C.Wellformed(s.client) && Enabled(s, step)
  {
    step.HandBatch? && Kept(Batch(s)) != [] ==>
      Delivery.Deliver(s.client.links, Stream(Kept(Batch(s))), step.ends, step.net).1.Delivered?
  }

  ghost predicate Lossless(s: System) {
    R.FromCallers(s.client.log) == Kept(Q.Handed(s.queue.log))
  }

  lemma {:induction false} KeptOfConcat(a: seq<Q.Item>, b: seq<Q.Item>)
    ensures Kept(a + b) == Kept(a) + Kept(b)
  {
    if b == [] {
      assert a + b == a;
    } else {
      var n := |b| - 1;
      KeptOfConcat(a, b[..n]);
      assert (a + b)[..|a| + n] == a + b[..n];
    }
  }

  lemma {:induction false} DeliveredLandsAll(s: C.State, units: seq<PDU>, ends: seq<nat>, net: Net)
    requires C.Wellformed(s) && C.Enabled(s, C.Deliver(units, ends, net))
    requires Delivery.Deliver(s.links, Stream(units), ends, net).1.Delivered?
    ensures R.LandedBy(s, C.Deliver(units, ends, net)) == units
  {
    DeliveryIsPrefix(s.links, units, ends, net);
    DeliveredMeansAll(s.links, units, ends, net);
  }

  lemma {:induction false} StepIsLossless(s: System, step: Step)
    requires C.Wellformed(s.client) && Enabled(s, step) && StepDelivers(s, step) && Lossless(s)
    ensures Lossless(Apply(s, step))
  {
    var q, c := QueuePart(step), ClientPart(Batch(s), step);
    if q.Some? {
      HandedBy(s.queue, q.value);
    }
    if c.Some? {
      R.StepLands(s.client, c.value);
    }
    var before := Q.Handed(s.queue.log);
    assert before + [] == before && Kept(before) + [] == Kept(before);
    if step.HandBatch? {
      KeptOfConcat(before, Batch(s));
      if Kept(Batch(s)) != [] {
        DeliveredLandsAll(s.client, Kept(Batch(s)), step.ends, step.net);
      }
    }
  }

  lemma {:induction false} RunIsLossless(s: System, steps: seq<Step>)
    requires Run(s, steps) && AllDelivered(s, steps) && Lossless(s)
    ensures Lossless(Exec(s, steps))
    decreases |steps|
  {
    if steps != [] {
      StepIsLossless(s, steps[0]);
      RunIsLossless(Apply(s, steps[0]), steps[1..]);
    }
  }

  /**
   If every delivery was answered nil, then once Close has finished the peer has the product of
   every accepted PDU that marshals, exactly, in the order of acceptance.
   */
  lemma {:induction false} NothingLostWithoutFailure(depth: nat, keepalives: bool, steps: seq<Step>)
    requires Run(Start(depth, keepalives), steps) && AllDelivered(Start(depth, keepalives), steps)
    requires Exec(Start(depth, keepalives), steps).queue.closer.Finished?
    ensures var s := Exec(Start(depth, keepalives), steps);
      PeersProduct(s) == R.Product(Kept(Q.ItemsOf(s.queue.accepted)))
  {
    var start := Start(depth, keepalives);
    var s := Exec(start, steps);
    StartIsInv(depth, keepalives);
    R.NewClient(keepalives);
    RunKeeps(start, steps);
    RunIsLossless(start, steps);
    R.PeersHaveCallersProduct(s.client);
    assert Q.Handed(s.queue.log) + ([] + []) == Q.Handed(s.queue.log);
  }
}
