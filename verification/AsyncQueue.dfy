/**
 The bounded asynchronous delivery queue, x2x3/async.go: the object as one goroutine sees it,
 and a state machine over the steps of any number of Send calls, the delivery worker and
 Close, with the lock and the channel as separate steps.
 */
module AsyncQueue {
  import opened Wrappers
  import opened Pdu

  /** A *PDU: None is the nil pointer. */
  type Item = Option<PDU>

  const DEFAULT_DEPTH := 1024
  const MAX_BATCH := 32

  function Least(a: nat, b: nat): nat {
    if a <= b then a else b
  }

  // ------------------------------------------------------------------- one goroutine

  /** The object's fields as a value, and what each call makes of them. */
  datatype Plain = Plain(
    depth: nat,
    queue: seq<Item>,
    closed: bool,
    drops: nat,
    worked: seq<seq<Item>>,
    innerCloses: nat,
    closeErr: Option<string>)

  function Offered(p: Plain, item: Item): Plain {
    if item.None? then p
    else if !p.closed && |p.queue| < p.depth then p.(queue := p.queue + [item])
    else p.(drops := p.drops + 1)
  }

  /** A turn of the worker: everything waiting, up to a batch. */
  function OneTurn(p: Plain): Plain {
    var n := Least(MAX_BATCH, |p.queue|);
    p.(queue := p.queue[n..], worked := p.worked + [p.queue[..n]])
  }

  function Drained(p: Plain): Plain
    decreases |p.queue|
  {
    if p.queue == [] then p else Drained(OneTurn(p))
  }

  function ClosedDown(p: Plain, answer: Option<string>): Plain {
    if p.closed then p
    else Drained(p.(closed := true)).(innerCloses := p.innerCloses + 1, closeErr := answer)
  }

  class AsyncSender {
    const depth: nat
    var queue: seq<Item>
    var closed: bool
    var channelClosed: bool
    var drops: nat
    var innerCloses: nat
    var closeErr: Option<string>
    var worked: seq<seq<Item>>

    function State(): Plain
      reads this
    {
      Plain(depth, queue, closed, drops, worked, innerCloses, closeErr)
    }

    /** What holds at every point, in the middle of Close too. */
    predicate Shape()
      reads this
    {
      && 0 < depth && |queue| <= depth
      && None !in queue
      && closed == channelClosed
      && (forall i :: 0 <= i < |worked| ==> 1 <= |worked[i]| <= MAX_BATCH && None !in worked[i])
    }

    predicate Valid()
      reads this
    {
      Shape() && innerCloses == (if closed then 1 else 0) && (closed ==> queue == [])
    }

    constructor (wanted: int)
      ensures Valid() && queue == [] && !closed && drops == 0 && worked == [] && closeErr == None
      ensures depth == if wanted <= 0 then 1024 else wanted
    {
      depth := if wanted <= 0 then DEFAULT_DEPTH else wanted;
      queue, closed, channelClosed, drops, innerCloses, worked, closeErr := [], false, false, 0, 0, [], None;
    }

    /** Check and offer, both under the read lock. */
    method Enqueue(pdu: Item) returns (accepted: bool)
      requires Valid() && pdu.Some?
      modifies this`queue
      ensures Valid()
      ensures accepted <==> !closed && |old(queue)| < depth
      ensures queue == if accepted then old(queue) + [pdu] else old(queue)
    {
      if closed {
        return false;
      }
      accepted := |queue| < depth;
      if accepted {
        queue := queue + [pdu];
      }
    }

    /** Never fails except on nil, and a PDU it does not accept is reported once. */
    method Send(pdu: Item) returns (nilPdu: bool)
      requires Valid()
      modifies this`queue, this`drops
      ensures Valid() && State() == Offered(old(State()), pdu)
      ensures nilPdu <==> pdu.None?
      ensures nilPdu ==> queue == old(queue) && drops == old(drops)
      ensures !nilPdu ==>
        if !closed && |old(queue)| < depth then queue == old(queue) + [pdu] && drops == old(drops)
        else queue == old(queue) && drops == old(drops) + 1
    {
      if pdu.None? {
        return true;
      }
      nilPdu := false;
      var accepted := Enqueue(pdu);
      if !accepted {
        drops := drops + 1;
      }
    }

    /**
     One turn of the worker when nobody else moves: everything waiting, up to a batch, in the
     order it was queued.
     */
    method TakeBatch() returns (batch: seq<Item>)
      requires Shape() && queue != []
      modifies this`queue, this`worked
      ensures Shape() && State() == OneTurn(old(State()))
      ensures batch == if |old(queue)| <= 32 then old(queue) else old(queue)[..32]
      ensures queue == old(queue)[|batch|..]
      ensures worked == old(worked) + [batch]
    {
      ghost var all := queue;
      batch, queue := [queue[0]], queue[1..];
      while |batch| < MAX_BATCH
        invariant 1 <= |batch| <= MAX_BATCH
        invariant batch + queue == all
        invariant worked == old(worked)
        decreases MAX_BATCH - |batch|
      {
        if queue != [] {
          batch, queue := batch + [queue[0]], queue[1..];
        } else if channelClosed {
          break;
        }
        if batch == [] || queue == [] {
          break;
        }
      }
      assert all[..|batch|] == batch && all[|batch|..] == queue;
      assert None !in all;
      worked := worked + [batch];
    }

    /**
     Stops accepting, lets the worker drain the queue, then closes the inner sender, once; every
     call answers what that one close answered.
     */
    method Close(answer: Option<string>) returns (err: Option<string>)
      requires Valid()
      modifies this`queue, this`worked, this`closed, this`channelClosed, this`innerCloses, this`closeErr
      ensures Valid() && closed && queue == [] && innerCloses == 1
      ensures State() == ClosedDown(old(State()), answer)
      ensures err == closeErr && closeErr == if old(closed) then old(closeErr) else answer
      ensures Flatten(worked) == Flatten(old(worked)) + old(queue)
    {
      ClosedDownHandsOver(State(), answer);
      if closed {
        return closeErr;
      }
      closed, channelClosed := true, true;
      DrainAll();
      innerCloses, closeErr := innerCloses + 1, answer;
      err := closeErr;
    }

    method DrainAll()
      requires Shape()
      modifies this`queue, this`worked
      ensures Shape() && queue == [] && State() == Drained(old(State()))
    {
      while queue != []
        invariant Shape() && Drained(State()) == Drained(old(State()))
        decreases |queue|
      {
        var _ := TakeBatch();
      }
    }
  }

  function Flatten(batches: seq<seq<Item>>): seq<Item> {
    if batches == [] then [] else Flatten(batches[..|batches| - 1]) + batches[|batches| - 1]
  }

  lemma {:induction false} FlattenSnoc(batches: seq<seq<Item>>, batch: seq<Item>)
    ensures Flatten(batches + [batch]) == Flatten(batches) + batch
  {
    assert (batches + [batch])[..|batches|] == batches;
  }

  /** Draining hands over what was queued, in order, and touches nothing else. */
  lemma {:induction false} DrainedHandsOver(p: Plain)
    ensures Drained(p) == p.(queue := [], worked := Drained(p).worked)
    ensures Flatten(Drained(p).worked) == Flatten(p.worked) + p.queue
    decreases |p.queue|
  {
    if p.queue != [] {
      var n := Least(MAX_BATCH, |p.queue|);
      DrainedHandsOver(OneTurn(p));
      FlattenSnoc(p.worked, p.queue[..n]);
      SplitBehind(Flatten(p.worked), p.queue, n);
    }
  }

  lemma {:induction false} ClosedDownHandsOver(p: Plain, answer: Option<string>)
    requires p.closed ==> p.queue == []
    ensures var q := ClosedDown(p, answer);
      && q.queue == [] && q.closed && q.depth == p.depth && q.drops == p.drops
      && Flatten(q.worked) == Flatten(p.worked) + p.queue
  {
    DrainedHandsOver(p.(closed := true));
    assert Flatten(p.worked) + [] == Flatten(p.worked);
  }

  lemma {:induction false} SplitBehind(front: seq<Item>, s: seq<Item>, n: nat)
    requires n <= |s|
    ensures front + s[..n] + s[n..] == front + s
  {
  }

  // --------------------------------------------------------------------- concurrently

  /** How far a Send call has come. Checking and Offering hold the read lock. */
  datatype Phase = Checking | Offering | Accepted | Owing | Reported

  datatype Call = Call(item: Item, phase: Phase)

  datatype Worker =
    | Waiting
    | Filling(batch: seq<Item>)    // at the loop's length test
    | Testing(batch: seq<Item>)    // at the emptiness test after the select
    | Sending(batch: seq<Item>)
    | Done

  /**
   How far Close has come. Announced waits for the write lock, which keeps new readers out;
   Locked, Flagged and Shut hold it.
   */
  datatype Closer = Open | Announced | Locked | Flagged | Shut | Awaiting | Finished

  datatype Event = Delivered(batch: seq<Item>) | InnerClosed(answer: Option<string>)

  /** A Close call: in the once or behind it, or returned with its answer. */
  datatype CloseCall = Entered | Returned(answer: Option<string>)

  datatype Entry = Entry(call: nat, item: Item)

  datatype Machine = Machine(
    depth: nat,
    queue: seq<Item>,
    closed: bool,
    channelClosed: bool,
    worker: Worker,
    closer: Closer,
    calls: seq<Call>,        // every non-nil Send, in the order they took the read lock
    accepted: seq<Entry>,    // what was put on the channel, in that order
    drops: nat,              // calls of onDrop
    log: seq<Event>,         // what the inner sender saw
    closeCalls: seq<CloseCall>,
    closeErr: Option<string>)

  datatype Action =
    | Begin(item: Item)
    | CheckClosed(i: nat)
    | Offer(i: nat)
    | OnDrop(i: nat)
    | Receive
    | Drain
    | TestEmpty
    | Deliver
    | Announce
    | Lock
    | Flag
    | CloseChannel
    | Unlock
    | CloseInner(answer: Option<string>)
    | EnterClose
    | ReturnClose(i: nat)

  predicate InPhase(m: Machine, i: nat, p: Phase) {
    i < |m.calls| && m.calls[i].phase == p
  }

  predicate Reading(c: Call) {
    c.phase.Checking? || c.phase.Offering?
  }

  predicate Writing(m: Machine) {
    m.closer.Locked? || m.closer.Flagged? || m.closer.Shut?
  }

  /** Whether the step can be taken: locks exclude, receives block. */
  predicate Enabled(m: Machine, a: Action) {
    match a
    case Begin(item) => item.None? || !(m.closer.Announced? || Writing(m))
    case CheckClosed(i) => InPhase(m, i, Checking)
    case Offer(i) => InPhase(m, i, Offering)
    case OnDrop(i) => InPhase(m, i, Owing)
    case Receive => m.worker.Waiting? && (m.queue != [] || m.channelClosed)
    case Drain => m.worker.Filling?
    case TestEmpty => m.worker.Testing?
    case Deliver => m.worker.Sending?
    case Announce => m.closer.Open? && m.closeCalls != []
    case Lock => m.closer.Announced? && forall i :: 0 <= i < |m.calls| ==> !Reading(m.calls[i])
    case Flag => m.closer.Locked?
    case CloseChannel => m.closer.Flagged?
    case Unlock => m.closer.Shut?
    case CloseInner(_) => m.closer.Awaiting? && m.worker.Done?
    case EnterClose => true
    case ReturnClose(i) => i < |m.closeCalls| && m.closeCalls[i].Entered? && m.closer.Finished?
  }

  /** The steps Go would end in a panic: using a closed channel, or delivering a nil PDU. */
  predicate Panics(m: Machine, a: Action) {
    match a
    case Offer(_) => m.channelClosed
    case CloseChannel => m.channelClosed
    case Deliver => m.worker.Sending? && None in m.worker.batch
    case _ => false
  }

  function Move(m: Machine, i: nat, p: Phase): Machine
    requires i < |m.calls|
  {
    m.(calls := m.calls[i := m.calls[i].(phase := p)])
  }

  function Apply(m: Machine, a: Action): Machine
    requires Enabled(m, a)
  {
    match a
    case Begin(item) => if item.None? then m else m.(calls := m.calls + [Call(item, Checking)])
    case CheckClosed(i) => Move(m, i, if m.closed then Owing else Offering)
    case Offer(i) =>
      if |m.queue| < m.depth then
        Move(m, i, Accepted).(queue := m.queue + [m.calls[i].item], accepted := m.accepted + [Entry(i,
          m.calls[i].item)])
      else Move(m, i, Owing)
    case OnDrop(i) => Move(m, i, Reported).(drops := m.drops + 1)
    case Receive =>
      if m.queue == [] then m.(worker := Done)
      else m.(worker := Filling([m.queue[0]]), queue := m.queue[1..])
    case Drain =>
      var batch := m.worker.batch;
      if |batch| >= MAX_BATCH then m.(worker := Sending(batch))
      else if m.queue != [] then m.(worker := Testing(batch + [m.queue[0]]), queue := m.queue[1..])
      else if m.channelClosed then m.(worker := Sending(batch))
      else m.(worker := Testing(batch))
    case TestEmpty =>
      var batch := m.worker.batch;
      if batch == [] || m.queue == [] then m.(worker := Sending(batch)) else m.(worker := Filling(batch))
    case Deliver => m.(worker := Waiting, log := m.log + [Delivered(m.worker.batch)])
    case Announce => m.(closer := Announced)
    case Lock => m.(closer := Locked)
    case Flag => m.(closer := Flagged, closed := true)
    case CloseChannel => m.(closer := Shut, channelClosed := true)
    case Unlock => m.(closer := Awaiting)
    case CloseInner(answer) => m.(closer := Finished, log := m.log + [InnerClosed(answer)], closeErr := answer)
    case EnterClose => m.(closeCalls := m.closeCalls + [Entered])
    case ReturnClose(i) => m.(closeCalls := m.closeCalls[i := Returned(m.closeErr)])
  }

  /** The PDUs the worker has handed to the inner sender. */
  function Handed(log: seq<Event>): seq<Item> {
    if log == [] then []
    else Handed(log[..|log| - 1]) + (if log[|log| - 1].Delivered? then log[|log| - 1].batch else [])
  }

  function Pending(w: Worker): seq<Item> {
    if w.Filling? || w.Testing? || w.Sending? then w.batch else []
  }

  function ItemsOf(entries: seq<Entry>): seq<Item> {
    if entries == [] then [] else ItemsOf(entries[..|entries| - 1]) + [entries[|entries| - 1].item]
  }

  function ReportedIn(calls: seq<Call>): nat {
    if calls == [] then 0
    else ReportedIn(calls[..|calls| - 1]) + if calls[|calls| - 1].phase.Reported? then 1 else 0
  }

  /** What is accepted but not handed over yet: the batch being filled, then the queue. */
  function Held(w: Worker, queue: seq<Item>): seq<Item> {
    Pending(w) + queue
  }

  /** What is queued or handed on, in order, is what was accepted, in order. */
  ghost predicate Fifo(m: Machine) {
    Handed(m.log) + Held(m.worker, m.queue) == ItemsOf(m.accepted)
  }

  /** Exactly the calls marked accepted are in the accepted list, each once, with their PDU. */
  ghost predicate Accounted(calls: seq<Call>, accepted: seq<Entry>) {
    && (forall k :: 0 <= k < |accepted| ==>
          && accepted[k].call < |calls|
          && calls[accepted[k].call] == Call(accepted[k].item, Accepted)
          && accepted[k].item.Some?)
    && (forall j, k :: 0 <= j < k < |accepted| ==> accepted[j].call != accepted[k].call)
    && (forall i :: 0 <= i < |calls| && calls[i].phase.Accepted? ==> Entry(i, calls[i].item) in accepted)
  }

  ghost predicate Locking(m: Machine) {
    && (Writing(m) ==> forall i :: 0 <= i < |m.calls| ==> !Reading(m.calls[i]))
    && (m.closed ==> forall i :: 0 <= i < |m.calls| ==> !m.calls[i].phase.Offering?)
    && (m.closed <==> !m.closer.Open? && !m.closer.Announced? && !m.closer.Locked?)
    && (m.channelClosed <==> m.closer.Shut? || m.closer.Awaiting? || m.closer.Finished?)
  }

  ghost predicate BatchOk(batch: seq<Item>) {
    1 <= |batch| <= MAX_BATCH && None !in batch
  }

  ghost predicate Working(m: Machine) {
    && (m.worker.Filling? || m.worker.Testing? || m.worker.Sending? ==> BatchOk(m.worker.batch))
    && None !in m.queue
    && |m.queue| <= m.depth
    && (m.worker.Done? ==> m.channelClosed && m.queue == [])
  }

  /** The inner sender sees sound batches, and its close last and only from a finished Close. */
  ghost predicate Logged(m: Machine) {
    && (forall k :: 0 <= k < |m.log| && m.log[k].Delivered? ==> BatchOk(m.log[k].batch))
    && (forall k :: 0 <= k < |m.log| && m.log[k].InnerClosed? ==> k == |m.log| - 1 && m.closer.Finished?)
    && (m.closer.Finished? ==> m.worker.Done? && m.log != [] && m.log[|m.log| - 1] == InnerClosed(m.closeErr))
  }

  /** Close calls return after the inner close, with its answer. */
  ghost predicate Answering(m: Machine) {
    forall i :: 0 <= i < |m.closeCalls| && m.closeCalls[i].Returned? ==>
      m.closer.Finished? && m.closeCalls[i].answer == m.closeErr
  }

  /** Every call has its PDU, and every one refused is reported once. */
  ghost predicate Accounts(m: Machine) {
    && Accounted(m.calls, m.accepted)
    && (forall i :: 0 <= i < |m.calls| ==> m.calls[i].item.Some?)
    && m.drops == ReportedIn(m.calls)
  }

  ghost predicate Inv(m: Machine) {
    Fifo(m) && Accounts(m) && Locking(m) && Working(m) && Logged(m) && Answering(m)
  }

  lemma {:induction false} ReportedAfter(calls: seq<Call>, i: nat, p: Phase)
    requires i < |calls| && !calls[i].phase.Reported?
    ensures ReportedIn(calls[i := calls[i].(phase := p)]) == ReportedIn(calls) + if p.Reported? then 1 else 0
  {
    var after := calls[i := calls[i].(phase := p)];
    var n := |calls| - 1;
    if i < n {
      ReportedAfter(calls[..n], i, p);
      assert after[..n] == calls[..n][i := calls[..n][i].(phase := p)];
    } else {
      assert after[..n] == calls[..n];
    }
  }

  lemma {:induction false} MoveAccounted(calls: seq<Call>, accepted: seq<Entry>, i: nat, p: Phase)
    requires Accounted(calls, accepted) && i < |calls|
    requires !calls[i].phase.Accepted? && !p.Accepted?
    ensures Accounted(calls[i := calls[i].(phase := p)], accepted)
  {
  }

  lemma {:induction false} AcceptAccounted(calls: seq<Call>, accepted: seq<Entry>, i: nat)
    requires Accounted(calls, accepted) && i < |calls|
    requires !calls[i].phase.Accepted? && calls[i].item.Some?
    ensures Accounted(calls[i := calls[i].(phase := Accepted)], accepted + [Entry(i, calls[i].item)])
  {
    var calls', accepted' := calls[i := calls[i].(phase := Accepted)], accepted + [Entry(i, calls[i].item)];
    forall j | 0 <= j < |calls'| && calls'[j].phase.Accepted? ensures Entry(j, calls'[j].item) in accepted' {
      if j == i {
        assert accepted'[|accepted|] == Entry(j, calls'[j].item);
      } else {
        assert Entry(j, calls[j].item) in accepted;
      }
    }
  }

  lemma {:induction false} BeginAccounted(calls: seq<Call>, accepted: seq<Entry>, c: Call)
    requires Accounted(calls, accepted) && !c.phase.Accepted?
    ensures Accounted(calls + [c], accepted)
  {
  }

  lemma {:induction false} KeepsAccounts(m: Machine, a: Action)
    requires Accounts(m) && Enabled(m, a)
    ensures Accounts(Apply(m, a))
  {
    match a {
      case Begin(item) =>
        if item.Some? {
          BeginAccounts(m, Call(item, Checking));
        }
      case CheckClosed(i) => MoveAccounts(m, i, if m.closed then Owing else Offering);
      case Offer(i) => OfferAccounts(m, i);
      case OnDrop(i) => MoveAccounts(m, i, Reported);
      case _ =>
    }
  }

  lemma {:induction false} MoveAccounts(m: Machine, i: nat, p: Phase)
    requires Accounts(m) && i < |m.calls|
    requires !m.calls[i].phase.Accepted? && !m.calls[i].phase.Reported? && !p.Accepted?
    ensures Accounts(Move(m, i, p).(drops := m.drops + if p.Reported? then 1 else 0))
  {
    MoveAccounted(m.calls, m.accepted, i, p);
    ReportedAfter(m.calls, i, p);
  }

  lemma {:induction false} AcceptAccounts(m: Machine, i: nat)
    requires Accounts(m) && InPhase(m, i, Offering)
    ensures Accounts(Move(m, i, Accepted).(accepted := m.accepted + [Entry(i, m.calls[i].item)]))
  {
    AcceptAccounted(m.calls, m.accepted, i);
    ReportedAfter(m.calls, i, Accepted);
  }

  lemma {:induction false} OfferAccounts(m: Machine, i: nat)
    requires Accounts(m) && Enabled(m, Offer(i))
    ensures Accounts(Apply(m, Offer(i)))
  {
    if |m.queue| < m.depth {
      AcceptAccounts(m, i);
    } else {
      MoveAccounts(m, i, Owing);
    }
  }

  lemma {:induction false} BeginAccounts(m: Machine, c: Call)
    requires Accounts(m) && c.phase.Checking? && c.item.Some?
    ensures Accounts(m.(calls := m.calls + [c]))
  {
    BeginAccounted(m.calls, m.accepted, c);
    assert (m.calls + [c])[..|m.calls|] == m.calls;
  }

  lemma {:induction false} AcceptLast(handed: seq<Item>, w: Worker, queue: seq<Item>, accepted: seq<Entry>, e: Entry)
    requires handed + Held(w, queue) == ItemsOf(accepted)
    ensures handed + Held(w, queue + [e.item]) == ItemsOf(accepted + [e])
  {
    assert (accepted + [e])[..|accepted|] == accepted;
    assert handed + Held(w, queue + [e.item]) == (handed + Held(w, queue)) + [e.item];
  }

  lemma {:induction false} HandOver(log: seq<Event>, e: Event, queue: seq<Item>)
    ensures Handed(log + [e]) + ([] + queue) == Handed(log) + ((if e.Delivered? then e.batch else []) + queue)
  {
    assert (log + [e])[..|log|] == log;
  }

  lemma {:induction false} TakeHead(batch: seq<Item>, queue: seq<Item>)
    requires queue != []
    ensures (batch + [queue[0]]) + queue[1..] == batch + queue
    ensures batch == [] ==> [queue[0]] + queue[1..] == batch + queue
  {
  }

  /** Filling a batch moves PDUs from the queue's head to the batch's end. */
  lemma {:induction false} WorkerKeepsHeld(m: Machine, a: Action)
    requires Enabled(m, a) && (a.Receive? || a.Drain? || a.TestEmpty?)
    ensures Held(Apply(m, a).worker, Apply(m, a).queue) == Held(m.worker, m.queue)
    ensures Apply(m, a).log == m.log && Apply(m, a).accepted == m.accepted
  {
    if m.queue != [] {
      TakeHead(Pending(m.worker), m.queue);
    }
  }

  lemma {:induction false} OfferKeepsFifo(m: Machine, i: nat)
    requires Fifo(m) && Enabled(m, Offer(i))
    ensures Fifo(Apply(m, Offer(i)))
  {
    var e, next := Entry(i, m.calls[i].item), Apply(m, Offer(i));
    if |m.queue| < m.depth {
      AcceptLast(Handed(m.log), m.worker, m.queue, m.accepted, e);
      assert next.queue == m.queue + [e.item] && next.accepted == m.accepted + [e];
    } else {
      assert next.queue == m.queue && next.accepted == m.accepted;
    }
    assert next.log == m.log && next.worker == m.worker;
  }

  lemma {:induction false} DeliverKeepsFifo(m: Machine)
    requires Fifo(m) && Enabled(m, Deliver)
    ensures Fifo(Apply(m, Deliver))
  {
    HandOver(m.log, Delivered(m.worker.batch), m.queue);
  }

  lemma {:induction false} CloseInnerKeepsFifo(m: Machine, answer: Option<string>)
    requires Fifo(m) && Enabled(m, CloseInner(answer))
    ensures Fifo(Apply(m, CloseInner(answer)))
  {
    HandOver(m.log, InnerClosed(answer), m.queue);
  }

  lemma {:induction false} KeepsFifo(m: Machine, a: Action)
    requires Fifo(m) && Enabled(m, a)
    ensures Fifo(Apply(m, a))
  {
    match a {
      case Offer(i) => OfferKeepsFifo(m, i);
      case Receive => WorkerKeepsHeld(m, a);
      case Drain => WorkerKeepsHeld(m, a);
      case TestEmpty => WorkerKeepsHeld(m, a);
      case Deliver => DeliverKeepsFifo(m);
      case CloseInner(answer) => CloseInnerKeepsFifo(m, answer);
      case _ =>
    }
  }

  lemma {:induction false} KeepsLocking(m: Machine, a: Action)
    requires Locking(m) && Enabled(m, a)
    ensures Locking(Apply(m, a))
  {
  }

  lemma {:induction false} KeepsWorking(m: Machine, a: Action)
    requires Working(m) && Enabled(m, a)
    requires a.Offer? ==> m.calls[a.i].item.Some? && !m.channelClosed
    ensures Working(Apply(m, a))
  {
  }

  lemma {:induction false} LogGrows(log: seq<Event>, e: Event)
    ensures var more := log + [e];
      |more| == |log| + 1 && more[|log|] == e && forall k :: 0 <= k < |log| ==> more[k] == log[k]
  {
  }

  lemma {:induction false} KeepsLogged(m: Machine, a: Action)
    requires Logged(m) && Enabled(m, a)
    requires m.worker.Sending? ==> BatchOk(m.worker.batch)
    ensures Logged(Apply(m, a))
  {
    match a {
      case Deliver => LogGrows(m.log, Delivered(m.worker.batch));
      case CloseInner(answer) => LogGrows(m.log, InnerClosed(answer));
      case _ => assert Apply(m, a).log == m.log;
    }
  }

  lemma {:induction false} KeepsAnswering(m: Machine, a: Action)
    requires Answering(m) && Enabled(m, a)
    ensures Answering(Apply(m, a))
  {
  }

  lemma {:induction false} StepKeeps(m: Machine, a: Action)
    requires Inv(m) && Enabled(m, a)
    ensures Inv(Apply(m, a)) && !Panics(m, a)
  {
    KeepsFifo(m, a);
    KeepsAccounts(m, a);
    KeepsLocking(m, a);
    KeepsWorking(m, a);
    KeepsLogged(m, a);
    KeepsAnswering(m, a);
  }

  ghost predicate Run(m: Machine, actions: seq<Action>)
    decreases |actions|
  {
    actions != [] ==> Enabled(m, actions[0]) && Run(Apply(m, actions[0]), actions[1..])
  }

  ghost function Exec(m: Machine, actions: seq<Action>): Machine
    requires Run(m, actions)
    decreases |actions|
  {
    if actions == [] then m else Exec(Apply(m, actions[0]), actions[1..])
  }

  ghost predicate NeverPanics(m: Machine, actions: seq<Action>)
    requires Run(m, actions)
    decreases |actions|
  {
    actions != [] ==> !Panics(m, actions[0]) && NeverPanics(Apply(m, actions[0]), actions[1..])
  }

  lemma {:induction false} RunKeeps(m: Machine, actions: seq<Action>)
    requires Inv(m) && Run(m, actions)
    ensures Inv(Exec(m, actions)) && NeverPanics(m, actions)
    decreases |actions|
  {
    if actions != [] {
      StepKeeps(m, actions[0]);
      RunKeeps(Apply(m, actions[0]), actions[1..]);
    }
  }

  function Fresh(depth: nat): Machine {
    Machine(depth, [], false, false, Waiting, Open, [], [], 0, [], [], None)
  }

  lemma {:induction false} FreshIsInv(depth: nat)
    ensures Inv(Fresh(depth))
  {
  }

  /**
   Over every interleaving: no step panics, so nothing is put on a closed channel and no nil
   is delivered; what the worker takes is what was accepted, in order, each once, in batches
   of 1 to 32; every non-nil Send that has returned was accepted or reported by its own
   onDrop; the inner sender is closed at most once, after the last batch; and however many
   calls of Close there are, each returns after that close, with its answer.
   */
  lemma {:induction false} QueueIsFifoAndSafe(depth: nat, actions: seq<Action>)
    requires Run(Fresh(depth), actions)
    ensures NeverPanics(Fresh(depth), actions)
    ensures var m := Exec(Fresh(depth), actions);
      && Handed(m.log) + (Pending(m.worker) + m.queue) == ItemsOf(m.accepted)
      && Accounted(m.calls, m.accepted)
      && m.drops == ReportedIn(m.calls)
      && (forall k :: 0 <= k < |m.log| && m.log[k].Delivered? ==>
            1 <= |m.log[k].batch| <= 32 && None !in m.log[k].batch)
      && (forall k :: 0 <= k < |m.log| && m.log[k].InnerClosed? ==> k == |m.log| - 1)
      && (forall i :: 0 <= i < |m.closeCalls| && m.closeCalls[i].Returned? ==>
            m.log != [] && m.log[|m.log| - 1] == InnerClosed(m.closeCalls[i].answer))
  {
    RunKeeps(Fresh(depth), actions);
  }

  lemma {:induction false} DepthStays(m: Machine, actions: seq<Action>)
    requires Run(m, actions)
    ensures Exec(m, actions).depth == m.depth
    decreases |actions|
  {
    if actions != [] {
      DepthStays(Apply(m, actions[0]), actions[1..]);
    }
  }

  /** The queue never holds more than its depth, and an offer is refused only when it holds that many. */
  lemma {:induction false} RefusedOnlyWhenFull(depth: nat, actions: seq<Action>, i: nat)
    requires Run(Fresh(depth), actions)
    ensures var m := Exec(Fresh(depth), actions);
      && |m.queue| <= depth
      && (Enabled(m, Offer(i)) ==>
            Apply(m, Offer(i)).calls[i].phase == if |m.queue| < depth then Accepted else Owing)
  {
    RunKeeps(Fresh(depth), actions);
    DepthStays(Fresh(depth), actions);
  }

  /** When Close has finished, every accepted PDU has been handed to the inner sender. */
  lemma {:induction false} FinishedMeansDrained(depth: nat, actions: seq<Action>)
    requires Run(Fresh(depth), actions) && Exec(Fresh(depth), actions).closer.Finished?
    ensures var m := Exec(Fresh(depth), actions);
      && Handed(m.log) == ItemsOf(m.accepted)
      && m.log != [] && m.log[|m.log| - 1] == InnerClosed(m.closeErr)
  {
    RunKeeps(Fresh(depth), actions);
    var m := Exec(Fresh(depth), actions);
    assert Handed(m.log) + ([] + []) == Handed(m.log);
  }

  /** Nothing is accepted once the flag is set, whatever calls were already under way. */
  lemma {:induction false} NothingAcceptedAfterClose(m: Machine, actions: seq<Action>)
    requires Locking(m) && m.closed && Run(m, actions)
    ensures Exec(m, actions).closed && Exec(m, actions).accepted == m.accepted
    decreases |actions|
  {
    if actions != [] {
      KeepsLocking(m, actions[0]);
      var next := Apply(m, actions[0]);
      assert next.closed && next.accepted == m.accepted;
      NothingAcceptedAfterClose(next, actions[1..]);
    }
  }
}
