/**
 The asynchronous queue's object and its machine agree: a Send, a turn of the worker or a Close
 that meets no other makes of the machine what the object's method makes of the object.
 */
module AsyncCalls {
  import opened Wrappers
  import opened Pdu
  import opened AsyncQueue
  import opened AsyncProgress

  function Batches(log: seq<Event>): seq<seq<Item>> {
    if log == [] then []
    else Batches(log[..|log| - 1]) + if log[|log| - 1].Delivered? then [log[|log| - 1].batch] else []
  }

  function Closes(log: seq<Event>): nat {
    if log == [] then 0 else Closes(log[..|log| - 1]) + if log[|log| - 1].InnerClosed? then 1 else 0
  }

  /** What the object's fields hold when the machine is in this state. */
  function AsObject(m: Machine): Plain {
    Plain(m.depth, m.queue, m.closed, m.drops, Batches(m.log), Closes(m.log), m.closeErr)
  }

  lemma {:induction false} LogSnoc(log: seq<Event>, e: Event)
    ensures Batches(log + [e]) == Batches(log) + if e.Delivered? then [e.batch] else []
    ensures Closes(log + [e]) == Closes(log) + if e.InnerClosed? then 1 else 0
  {
    assert (log + [e])[..|log|] == log;
  }

  /** Nobody else moves. */
  ghost predicate Only(steps: seq<Action>, p: Party) {
    forall k :: 0 <= k < |steps| ==> PartyOf(steps[k]) == p
  }

  /** Close's own steps and those of the worker it waits for. */
  predicate OfClosing(a: Action) {
    PartyOf(a).TheCloser? || PartyOf(a).TheWorker? || a.EnterClose? || a.ReturnClose?
  }

  ghost predicate OnlyClosing(steps: seq<Action>) {
    forall k :: 0 <= k < |steps| ==> OfClosing(steps[k])
  }

  lemma {:induction false} ClosingTogether(a: seq<Action>, b: seq<Action>, c: seq<Action>)
    requires OnlyClosing(a) && Only(b, TheWorker) && OnlyClosing(c)
    ensures OnlyClosing(a + b + c)
  {
  }

  lemma {:induction false} Then(m: Machine, a: Action, next: Machine, rest: seq<Action>) returns (steps: seq<Action>)
    requires Enabled(m, a) && next == Apply(m, a) && Run(next, rest)
    ensures Run(m, steps) && Exec(m, steps) == Exec(next, rest)
    ensures steps != [] && steps[0] == a && steps[1..] == rest
    ensures Only(rest, PartyOf(a)) ==> Only(steps, PartyOf(a))
    ensures OfClosing(a) && OnlyClosing(rest) ==> OnlyClosing(steps)
  {
    steps := [a] + rest;
    assert steps[1..] == rest;
  }

  // ------------------------------------------------------------------------------- Send

  lemma {:induction false} RefusedReports(m: Machine, i: nat) returns (steps: seq<Action>)
    requires InPhase(m, i, Owing)
    ensures Only(steps, Sender(i)) && Run(m, steps)
    ensures Exec(m, steps) == Move(m, i, Reported).(drops := m.drops + 1)
  {
    steps := Then(m, OnDrop(i), Apply(m, OnDrop(i)), []);
  }

  lemma {:induction false} OfferReturns(m: Machine, i: nat) returns (steps: seq<Action>)
    requires InPhase(m, i, Offering) && !m.closed && m.calls[i].item.Some?
    ensures Only(steps, Sender(i)) && Run(m, steps)
    ensures AsObject(Exec(m, steps)) == Offered(AsObject(m), m.calls[i].item)
    ensures Exec(m, steps).worker == m.worker && Exec(m, steps).closer == m.closer
  {
    var next := Apply(m, Offer(i));
    var rest := [];
    if |m.queue| >= m.depth {
      rest := RefusedReports(next, i);
    }
    steps := Then(m, Offer(i), next, rest);
  }

  lemma {:induction false} CheckReturns(m: Machine, i: nat) returns (steps: seq<Action>)
    requires InPhase(m, i, Checking) && m.calls[i].item.Some?
    ensures Only(steps, Sender(i)) && Run(m, steps)
    ensures AsObject(Exec(m, steps)) == Offered(AsObject(m), m.calls[i].item)
    ensures Exec(m, steps).worker == m.worker && Exec(m, steps).closer == m.closer
  {
    var next := Apply(m, CheckClosed(i));
    var rest;
    if m.closed {
      rest := RefusedReports(next, i);
    } else {
      rest := OfferReturns(next, i);
    }
    steps := Then(m, CheckClosed(i), next, rest);
  }

  /** A Send nobody interrupts, at any time it can take the read lock. */
  lemma {:induction false} UninterruptedSend(m: Machine, item: Item) returns (steps: seq<Action>)
    requires Enabled(m, Begin(item))
    ensures steps != [] && steps[0] == Begin(item) && Only(steps[1..], Sender(|m.calls|))
    ensures Run(m, steps) && AsObject(Exec(m, steps)) == Offered(AsObject(m), item)
    ensures Exec(m, steps).worker == m.worker && Exec(m, steps).closer == m.closer
  {
    var next := Apply(m, Begin(item));
    var rest := [];
    if item.Some? {
      rest := CheckReturns(next, |m.calls|);
    }
    steps := Then(m, Begin(item), next, rest);
  }

  // ------------------------------------------------------------------------- the worker

  /** The batch handed over and the rest of the queue left. */
  function HandedOver(m: Machine, all: seq<Item>): Machine {
    var n := Least(MAX_BATCH, |all|);
    m.(worker := Waiting, queue := all[n..], log := m.log + [Delivered(all[..n])])
  }

  lemma {:induction false} SendingHandsOver(m: Machine, all: seq<Item>) returns (steps: seq<Action>)
    requires m.worker.Sending? && all == m.worker.batch + m.queue
    requires |m.worker.batch| == Least(MAX_BATCH, |all|)
    ensures Only(steps, TheWorker) && Run(m, steps) && Exec(m, steps) == HandedOver(m, all)
  {
    var n := |m.worker.batch|;
    assert all[..n] == m.worker.batch && all[n..] == m.queue;
    steps := Then(m, Deliver, Apply(m, Deliver), []);
  }

  lemma {:induction false} LastTestHandsOver(m: Machine, all: seq<Item>) returns (steps: seq<Action>)
    requires m.worker.Testing? && m.queue == [] && all == m.worker.batch && |all| <= MAX_BATCH
    ensures Only(steps, TheWorker) && Run(m, steps) && Exec(m, steps) == HandedOver(m, all)
  {
    var next := Apply(m, TestEmpty);
    assert all == next.worker.batch + next.queue;
    var rest := SendingHandsOver(next, all);
    steps := Then(m, TestEmpty, next, rest);
  }

  /** The drain loop, from its length test on. */
  lemma {:induction false} FillingHandsOver(m: Machine, all: seq<Item>) returns (steps: seq<Action>)
    requires m.worker.Filling? && 1 <= |m.worker.batch| <= MAX_BATCH && all == m.worker.batch + m.queue
    ensures Only(steps, TheWorker) && Run(m, steps) && Exec(m, steps) == HandedOver(m, all)
    decreases |m.queue|
  {
    var batch, next := m.worker.batch, Apply(m, Drain);
    var rest;
    if |batch| == MAX_BATCH || (m.queue == [] && m.channelClosed) {
      rest := SendingHandsOver(next, all);
    } else if m.queue == [] {
      assert all == batch;
      rest := LastTestHandsOver(next, all);
    } else {
      TakeHead(batch, m.queue);
      if next.queue == [] {
        assert all == next.worker.batch;
        rest := LastTestHandsOver(next, all);
      } else {
        var again := Apply(next, TestEmpty);
        var more := FillingHandsOver(again, all);
        rest := Then(next, TestEmpty, again, more);
      }
    }
    steps := Then(m, Drain, next, rest);
  }

  lemma {:induction false} TurnHandsOver(m: Machine) returns (steps: seq<Action>)
    requires m.worker.Waiting? && m.queue != []
    ensures Only(steps, TheWorker) && Run(m, steps) && Exec(m, steps) == HandedOver(m, m.queue)
  {
    var next := Apply(m, Receive);
    TakeHead([], m.queue);
    var rest := FillingHandsOver(next, m.queue);
    steps := Then(m, Receive, next, rest);
  }

  lemma {:induction false} HandedOverIsOneTurn(m: Machine)
    requires m.worker.Waiting? && m.queue != []
    ensures AsObject(HandedOver(m, m.queue)) == OneTurn(AsObject(m))
  {
    LogSnoc(m.log, Delivered(m.queue[..Least(MAX_BATCH, |m.queue|)]));
  }

  /** A turn of the worker during which nobody else moves. */
  lemma {:induction false} UninterruptedTurn(m: Machine) returns (steps: seq<Action>)
    requires m.worker.Waiting? && m.queue != []
    ensures Only(steps, TheWorker) && Run(m, steps) && AsObject(Exec(m, steps)) == OneTurn(AsObject(m))
    ensures Exec(m, steps) == HandedOver(m, m.queue)
  {
    steps := TurnHandsOver(m);
    HandedOverIsOneTurn(m);
  }

  /** Turn after turn until the queue is empty. */
  lemma {:induction false} UninterruptedDrain(m: Machine) returns (steps: seq<Action>)
    requires m.worker.Waiting?
    ensures Only(steps, TheWorker) && Run(m, steps) && AsObject(Exec(m, steps)) == Drained(AsObject(m))
    ensures Exec(m, steps) == m.(queue := [], log := Exec(m, steps).log)
    decreases |m.queue|
  {
    if m.queue == [] {
      steps := [];
    } else {
      var turn := UninterruptedTurn(m);
      var rest := UninterruptedDrain(HandedOver(m, m.queue));
      RunOn(m, turn, rest);
      steps := turn + rest;
    }
  }

  // ------------------------------------------------------------------------------ Close

  /** Under the write lock. */
  lemma {:induction false} FlagAndUnlock(m: Machine) returns (steps: seq<Action>)
    requires m.closer.Locked?
    ensures OnlyClosing(steps) && Run(m, steps)
    ensures Exec(m, steps) == m.(closer := Awaiting, closed := true, channelClosed := true)
  {
    var m1 := Apply(m, Flag);
    var m2 := Apply(m1, CloseChannel);
    steps := Then(m2, Unlock, Apply(m2, Unlock), []);
    steps := Then(m1, CloseChannel, m2, steps);
    steps := Then(m, Flag, m1, steps);
  }

  /** From entering Close to waiting for the worker. */
  lemma {:induction false} LockAndFlag(m: Machine) returns (steps: seq<Action>)
    requires m.closer.Open? && forall i :: 0 <= i < |m.calls| ==> !Reading(m.calls[i])
    ensures OnlyClosing(steps) && Run(m, steps)
    ensures Exec(m, steps)
      == m.(closer := Awaiting, closed := true, channelClosed := true, closeCalls := m.closeCalls + [Entered])
  {
    var m1 := Apply(m, EnterClose);
    var m2 := Apply(m1, Announce);
    var m3 := Apply(m2, Lock);
    steps := FlagAndUnlock(m3);
    steps := Then(m2, Lock, m3, steps);
    steps := Then(m1, Announce, m2, steps);
    steps := Then(m, EnterClose, m1, steps);
  }

  /** From the drained queue to the answer. */
  lemma {:induction false} FinishAndReturn(m: Machine, i: nat, answer: Option<string>) returns (steps: seq<Action>)
    requires m.closer.Awaiting? && m.worker.Waiting? && m.queue == [] && m.channelClosed
    requires i < |m.closeCalls| && m.closeCalls[i].Entered?
    ensures OnlyClosing(steps) && Run(m, steps)
    ensures Exec(m, steps) == m.(worker := Done, closer := Finished, log := m.log + [InnerClosed(answer)],
      closeErr := answer, closeCalls := m.closeCalls[i := Returned(answer)])
  {
    var m1 := Apply(m, Receive);
    var m2 := Apply(m1, CloseInner(answer));
    steps := Then(m2, ReturnClose(i), Apply(m2, ReturnClose(i)), []);
    steps := Then(m1, CloseInner(answer), m2, steps);
    steps := Then(m, Receive, m1, steps);
  }

  /** The first Close, with no Send under way and only the worker to wait for. */
  lemma {:induction false} UninterruptedClose(m: Machine, answer: Option<string>) returns (steps: seq<Action>)
    requires Locking(m) && m.closer.Open? && m.worker.Waiting?
    requires forall i :: 0 <= i < |m.calls| ==> !Reading(m.calls[i])
    ensures OnlyClosing(steps) && Run(m, steps) && AsObject(Exec(m, steps)) == ClosedDown(AsObject(m), answer)
    ensures Exec(m, steps).closer.Finished? && Exec(m, steps).closeCalls == m.closeCalls + [Returned(answer)]
  {
    var n := |m.closeCalls|;
    var locked :=
      m.(closer := Awaiting, closed := true, channelClosed := true, closeCalls := m.closeCalls + [Entered]);
    var a := LockAndFlag(m);
    var b := UninterruptedDrain(locked);
    var drained := Exec(locked, b);
    var c := FinishAndReturn(drained, n, answer);
    RunOn(m, a, b);
    RunOn(m, a + b, c);
    ClosingTogether(a, b, c);
    steps := a + b + c;
    LogSnoc(drained.log, InnerClosed(answer));
    DrainedHandsOver(AsObject(locked));
    assert (m.closeCalls + [Entered])[n := Returned(answer)] == m.closeCalls + [Returned(answer)];
  }

  /** Any later Close changes nothing and is told what the first was told. */
  lemma {:induction false} UninterruptedSecondClose(m: Machine, answer: Option<string>) returns (steps: seq<Action>)
    requires Locking(m) && m.closer.Finished?
    ensures OnlyClosing(steps) && Run(m, steps)
    ensures AsObject(Exec(m, steps)) == AsObject(m) == ClosedDown(AsObject(m), answer)
    ensures Exec(m, steps).closeCalls == m.closeCalls + [Returned(m.closeErr)]
  {
    var n, next := |m.closeCalls|, Apply(m, EnterClose);
    steps := Then(next, ReturnClose(n), Apply(next, ReturnClose(n)), []);
    steps := Then(m, EnterClose, next, steps);
    assert (m.closeCalls + [Entered])[n := Returned(m.closeErr)] == m.closeCalls + [Returned(m.closeErr)];
  }
}
