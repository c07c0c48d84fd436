/**
 That the asynchronous queue of x2x3/async.go comes to rest: how many steps a run can have, what
 holds when none is left, and that no number of further Sends can hold up a Close.
 */
module AsyncProgress {
  import opened Wrappers
  import opened Pdu
  import opened AsyncQueue

  // ------------------------------------------------------------------- steps left to take

  /** More than the steps a call has left, its PDU's way through the worker included. */
  function CallWeight(c: Call): nat {
    match c.phase
    case Checking => 7
    case Offering => 6
    case Owing => 1
    case _ => 0
  }

  function CallsWeight(calls: seq<Call>): nat {
    if calls == [] then 0 else CallsWeight(calls[..|calls| - 1]) + CallWeight(calls[|calls| - 1])
  }

  /** The drain loop goes round without a receive only on an empty queue. */
  function WorkerWeight(w: Worker, queue: seq<Item>): nat {
    match w
    case Filling(_) => if queue == [] then 5 else 3
    case Testing(_) => 4
    case Sending(_) => 2
    case Waiting => 1
    case Done => 0
  }

  function CloserWeight(c: Closer): nat {
    match c
    case Open => 6
    case Announced => 5
    case Locked => 4
    case Flagged => 3
    case Shut => 2
    case Awaiting => 1
    case Finished => 0
  }

  function EnteredIn(closeCalls: seq<CloseCall>): nat {
    if closeCalls == [] then 0
    else EnteredIn(closeCalls[..|closeCalls| - 1]) + if closeCalls[|closeCalls| - 1].Entered? then 1 else 0
  }

  /** What the worker and the closer have left to do. */
  function Work(m: Machine): nat {
    5 * |m.queue| + WorkerWeight(m.worker, m.queue) + CloserWeight(m.closer)
  }

  function Measure(m: Machine): nat {
    Work(m) + CallsWeight(m.calls) + EnteredIn(m.closeCalls)
  }

  /** The steps no call to the object starts. */
  predicate Internal(a: Action) {
    !a.Begin? && !a.EnterClose?
  }

  predicate WorkersOrClosers(a: Action) {
    a.Receive? || a.Drain? || a.TestEmpty? || a.Deliver? ||
    a.Announce? || a.Lock? || a.Flag? || a.CloseChannel? || a.Unlock? || a.CloseInner?
  }

  /** What a call to the object adds to the steps to come. */
  function Brings(a: Action): nat {
    match a
    case Begin(_) => 8
    case EnterClose => 2
    case _ => 0
  }

  function BroughtIn(actions: seq<Action>): nat {
    if actions == [] then 0 else Brings(actions[0]) + BroughtIn(actions[1..])
  }

  lemma {:induction false} MovedWeight(calls: seq<Call>, i: nat, c: Call)
    requires i < |calls|
    ensures CallsWeight(calls[i := c]) + CallWeight(calls[i]) == CallsWeight(calls) + CallWeight(c)
  {
    var n := |calls| - 1;
    if i < n {
      MovedWeight(calls[..n], i, c);
      assert calls[i := c][..n] == calls[..n][i := c];
    } else {
      assert calls[i := c][..n] == calls[..n];
    }
  }

  lemma {:induction false} ReturnedLeaves(closeCalls: seq<CloseCall>, i: nat, answer: Option<string>)
    requires i < |closeCalls| && closeCalls[i].Entered?
    ensures EnteredIn(closeCalls[i := Returned(answer)]) + 1 == EnteredIn(closeCalls)
  {
    var after, n := closeCalls[i := Returned(answer)], |closeCalls| - 1;
    if i < n {
      ReturnedLeaves(closeCalls[..n], i, answer);
      assert after[..n] == closeCalls[..n][i := Returned(answer)];
    } else {
      assert after[..n] == closeCalls[..n];
    }
  }

  /** Every step of the worker's or the closer's uses up work, whatever the state. */
  lemma {:induction false} WorkShrinks(m: Machine, a: Action)
    requires Enabled(m, a) && WorkersOrClosers(a)
    ensures Work(Apply(m, a)) < Work(m)
    ensures Apply(m, a).calls == m.calls && Apply(m, a).closeCalls == m.closeCalls
  {
    var next := Apply(m, a);
    if a.Receive? || a.Drain? || a.TestEmpty? || a.Deliver? {
      assert next.closer == m.closer;
    } else {
      assert next.queue == m.queue && next.worker == m.worker;
    }
  }

  /** Accepting a PDU adds less work than the offering call had left. */
  lemma {:induction false} OfferWork(m: Machine, i: nat)
    requires Enabled(m, Offer(i))
    ensures Work(Apply(m, Offer(i))) + CallWeight(Apply(m, Offer(i)).calls[i]) < Work(m) + CallWeight(m.calls[i])
  {
  }

  lemma {:induction false} SendersShrink(m: Machine, a: Action)
    requires Enabled(m, a) && (a.CheckClosed? || a.Offer? || a.OnDrop?)
    ensures Measure(Apply(m, a)) < Measure(m)
  {
    var next := Apply(m, a);
    MovedWeight(m.calls, a.i, next.calls[a.i]);
    assert next.calls == m.calls[a.i := next.calls[a.i]];
    if a.Offer? {
      OfferWork(m, a.i);
    } else {
      assert Work(next) == Work(m);
    }
  }

  /** Each step costs one, and only calls to the object bring more. */
  lemma {:induction false} StepCosts(m: Machine, a: Action)
    requires Enabled(m, a)
    ensures Measure(Apply(m, a)) + 1 <= Measure(m) + Brings(a)
  {
    if WorkersOrClosers(a) {
      WorkShrinks(m, a);
    } else {
      match a {
        case Begin(item) => assert (m.calls + [Call(item, Checking)])[..|m.calls|] == m.calls;
        case EnterClose => assert (m.closeCalls + [Entered])[..|m.closeCalls|] == m.closeCalls;
        case ReturnClose(i) => ReturnedLeaves(m.closeCalls, i, m.closeErr);
        case _ => SendersShrink(m, a);
      }
    }
  }

  lemma {:induction false} RunCosts(m: Machine, actions: seq<Action>)
    requires Run(m, actions)
    ensures |actions| + Measure(Exec(m, actions)) <= Measure(m) + BroughtIn(actions)
    decreases |actions|
  {
    if actions != [] {
      StepCosts(m, actions[0]);
      RunCosts(Apply(m, actions[0]), actions[1..]);
    }
  }

  // ------------------------------------------------------------------------ coming to rest

  /** Nothing can happen until the object is called again. */
  ghost predicate AtRest(m: Machine) {
    forall a :: Enabled(m, a) ==> !Internal(a)
  }

  /** Every call has its outcome, and everything accepted has been handed over. */
  ghost predicate Settled(m: Machine) {
    && (forall i :: 0 <= i < |m.calls| ==> m.calls[i].phase.Accepted? || m.calls[i].phase.Reported?)
    && Handed(m.log) == ItemsOf(m.accepted)
    && (m.closeCalls != [] ==>
          && m.closer.Finished? && m.log != [] && m.log[|m.log| - 1] == InnerClosed(m.closeErr)
          && forall i :: 0 <= i < |m.closeCalls| ==> m.closeCalls[i] == Returned(m.closeErr))
  }

  /** A Send not yet returned can take its next step. */
  lemma {:induction false} SenderCanMove(m: Machine, i: nat) returns (a: Action)
    requires i < |m.calls| && !m.calls[i].phase.Accepted? && !m.calls[i].phase.Reported?
    ensures Enabled(m, a) && Internal(a) && (Reading(m.calls[i]) ==> a == CheckClosed(i) || a == Offer(i))
  {
    a := match m.calls[i].phase case Checking => CheckClosed(i) case Offering => Offer(i) case _ => OnDrop(i);
  }

  /** Close, once entered, can take its next step, or waits for one the worker or a reader can take. */
  lemma {:induction false} CloseCanMove(m: Machine) returns (a: Action)
    requires Locking(m) && m.closeCalls != [] && !m.closer.Finished?
    ensures Enabled(m, a) && Needed(m, a)
  {
    match m.closer {
      case Open => a := Announce;
      case Announced =>
        if i :| 0 <= i < |m.calls| && Reading(m.calls[i]) {
          a := SenderCanMove(m, i);
        } else {
          a := Lock;
        }
      case Locked => a := Flag;
      case Flagged => a := CloseChannel;
      case Shut => a := Unlock;
      case Awaiting =>
        a := match m.worker case Waiting => Receive case Filling(_) => Drain case Testing(_) => TestEmpty
             case Sending(_) => Deliver case Done => CloseInner(None);
    }
  }

  lemma {:induction false} AtRestHoldsNothing(m: Machine)
    requires Fifo(m) && Working(m) && AtRest(m)
    ensures Handed(m.log) == ItemsOf(m.accepted)
  {
    assert !Enabled(m, Receive) && !Enabled(m, Drain) && !Enabled(m, TestEmpty) && !Enabled(m, Deliver);
    assert Held(m.worker, m.queue) == [] && Handed(m.log) + [] == Handed(m.log);
  }

  lemma {:induction false} SendersAtRest(m: Machine)
    requires AtRest(m)
    ensures forall i :: 0 <= i < |m.calls| ==> m.calls[i].phase.Accepted? || m.calls[i].phase.Reported?
  {
    if i :| 0 <= i < |m.calls| && !m.calls[i].phase.Accepted? && !m.calls[i].phase.Reported? {
      var a := SenderCanMove(m, i);
      assert false;
    }
  }

  lemma {:induction false} ClosesAtRest(m: Machine)
    requires AtRest(m) && Locking(m) && Answering(m)
    ensures m.closeCalls != [] ==> m.closer.Finished?
    ensures forall i :: 0 <= i < |m.closeCalls| ==> m.closeCalls[i] == Returned(m.closeErr)
  {
    if m.closeCalls != [] && !m.closer.Finished? {
      var a := CloseCanMove(m);
      assert false;
    }
    forall i | 0 <= i < |m.closeCalls| ensures m.closeCalls[i] == Returned(m.closeErr) {
      assert !Enabled(m, ReturnClose(i));
    }
  }

  lemma {:induction false} AtRestIsSettled(m: Machine)
    requires Inv(m) && AtRest(m)
    ensures Settled(m)
  {
    SendersAtRest(m);
    AtRestHoldsNothing(m);
    ClosesAtRest(m);
  }

  lemma {:induction false} RunOn(m: Machine, a: seq<Action>, b: seq<Action>)
    requires Run(m, a) && Run(Exec(m, a), b)
    ensures Run(m, a + b) && Exec(m, a + b) == Exec(Exec(m, a), b)
    decreases |a|
  {
    if a == [] {
      assert a + b == b;
    } else {
      RunOn(Apply(m, a[0]), a[1..], b);
      assert (a + b)[1..] == a[1..] + b;
    }
  }

  /** From any state, steps already owed lead to rest. */
  lemma {:induction false} CanComeToRest(m: Machine) returns (rest: seq<Action>)
    ensures Run(m, rest) && AtRest(Exec(m, rest)) && forall k :: 0 <= k < |rest| ==> Internal(rest[k])
    decreases Measure(m)
  {
    if a :| Enabled(m, a) && Internal(a) {
      StepCosts(m, a);
      var more := CanComeToRest(Apply(m, a));
      rest := [a] + more;
      assert rest[1..] == more;
    } else {
      rest := [];
    }
  }

  lemma {:induction false} RunSettles(start: Machine, actions: seq<Action>) returns (rest: seq<Action>)
    requires Inv(start) && Run(start, actions)
    ensures |actions| <= Measure(start) + BroughtIn(actions)
    ensures AtRest(Exec(start, actions)) ==> Settled(Exec(start, actions))
    ensures Run(start, actions + rest) && Settled(Exec(start, actions + rest))
    ensures forall k :: 0 <= k < |rest| ==> Internal(rest[k])
  {
    var m := Exec(start, actions);
    RunCosts(start, actions);
    RunKeeps(start, actions);
    if AtRest(m) {
      AtRestIsSettled(m);
    }
    rest := CanComeToRest(m);
    RunOn(start, actions, rest);
    RunKeeps(m, rest);
    AtRestIsSettled(Exec(m, rest));
  }

  lemma {:induction false} FreshMeasure(depth: nat)
    ensures Measure(Fresh(depth)) == 7
  {
  }

  /**
   No run spins: with s Sends and c Closes begun it has at most 7 + 8 * s + 2 * c steps. One that
   cannot go on has settled: every Send was accepted or reported, everything accepted was handed
   to the inner sender, and every Close returned, after the inner close and with its answer.
   And every run can go on to such a state without anybody calling the object again.
   */
  lemma {:induction false} EveryRunSettles(depth: nat, actions: seq<Action>) returns (rest: seq<Action>)
    requires Run(Fresh(depth), actions)
    ensures |actions| <= 7 + BroughtIn(actions)
    ensures AtRest(Exec(Fresh(depth), actions)) ==> Settled(Exec(Fresh(depth), actions))
    ensures Run(Fresh(depth), actions + rest) && Settled(Exec(Fresh(depth), actions + rest))
    ensures forall k :: 0 <= k < |rest| ==> Internal(rest[k])
  {
    FreshIsInv(depth);
    FreshMeasure(depth);
    rest := RunSettles(Fresh(depth), actions);
  }

  // -------------------------------------------------------------- Close is not held up

  /** The steps Close waits for: its own, the worker's, and those of readers before the flag. */
  predicate Needed(m: Machine, a: Action) {
    WorkersOrClosers(a) || (!m.closed && (a.CheckClosed? || a.Offer?))
  }

  function ReadersWeight(calls: seq<Call>): nat {
    if calls == [] then 0
    else ReadersWeight(calls[..|calls| - 1]) + if Reading(calls[|calls| - 1]) then CallWeight(calls[|calls| - 1]) else 0
  }

  /** The needed steps left; later Sends do not enter into it. */
  function Backlog(m: Machine): nat {
    Work(m) + if m.closed then 0 else ReadersWeight(m.calls)
  }

  function NeededIn(m: Machine, actions: seq<Action>): nat
    requires Run(m, actions)
    decreases |actions|
  {
    if actions == [] then 0
    else (if Needed(m, actions[0]) then 1 else 0) + NeededIn(Apply(m, actions[0]), actions[1..])
  }

  lemma {:induction false} MovedReaders(calls: seq<Call>, i: nat, c: Call)
    requires i < |calls|
    ensures ReadersWeight(calls[i := c]) + (if Reading(calls[i]) then CallWeight(calls[i]) else 0)
         == ReadersWeight(calls) + if Reading(c) then CallWeight(c) else 0
  {
    var n := |calls| - 1;
    if i < n {
      MovedReaders(calls[..n], i, c);
      assert calls[i := c][..n] == calls[..n][i := c];
    } else {
      assert calls[i := c][..n] == calls[..n];
    }
  }

  /** Once Close has asked for the lock, needed steps use the backlog up and no step adds to it. */
  lemma {:induction false} BacklogShrinks(m: Machine, a: Action)
    requires Locking(m) && Enabled(m, a) && !m.closer.Open?
    ensures !Apply(m, a).closer.Open?
    ensures Backlog(Apply(m, a)) + (if Needed(m, a) then 1 else 0) <= Backlog(m)
  {
    var next := Apply(m, a);
    if WorkersOrClosers(a) {
      WorkShrinks(m, a);
    } else if a.CheckClosed? || a.Offer? || a.OnDrop? {
      MovedReaders(m.calls, a.i, next.calls[a.i]);
      assert next.calls == m.calls[a.i := next.calls[a.i]];
      if a.Offer? {
        OfferWork(m, a.i);
      }
    }
  }

  /**
   Once Close has asked for the lock, any run, with any number of further Sends in it, takes at
   most Backlog of the steps Close waits for.
   */
  lemma {:induction false} CloseIsNotHeldUp(m: Machine, actions: seq<Action>)
    requires Locking(m) && !m.closer.Open? && Run(m, actions)
    ensures NeededIn(m, actions) + Backlog(Exec(m, actions)) <= Backlog(m)
    decreases |actions|
  {
    if actions != [] {
      KeepsLocking(m, actions[0]);
      BacklogShrinks(m, actions[0]);
      CloseIsNotHeldUp(Apply(m, actions[0]), actions[1..]);
    }
  }

  /** Who takes a step: a Send by its number, the worker, or the one Close inside the once. */
  datatype Party = Sender(i: nat) | TheWorker | TheCloser | Callers

  function PartyOf(a: Action): Party {
    match a
    case CheckClosed(i) => Sender(i)
    case Offer(i) => Sender(i)
    case OnDrop(i) => Sender(i)
    case Receive => TheWorker
    case Drain => TheWorker
    case TestEmpty => TheWorker
    case Deliver => TheWorker
    case Announce => TheCloser
    case Lock => TheCloser
    case Flag => TheCloser
    case CloseChannel => TheCloser
    case Unlock => TheCloser
    case CloseInner(_) => TheCloser
    case _ => Callers
  }

  lemma {:induction false} OthersDoNotDisableWorker(m: Machine, a: Action, b: Action)
    requires Enabled(m, a) && PartyOf(a).TheWorker? && Enabled(m, b) && !PartyOf(b).TheWorker?
    ensures Enabled(Apply(m, b), a)
  {
    var next := Apply(m, b);
    assert next.worker == m.worker && |m.queue| <= |next.queue| && (m.channelClosed ==> next.channelClosed);
  }

  lemma {:induction false} OthersDoNotDisableCloser(m: Machine, a: Action, b: Action)
    requires Enabled(m, a) && PartyOf(a).TheCloser? && Enabled(m, b) && !PartyOf(b).TheCloser?
    ensures Enabled(Apply(m, b), a)
  {
    var next := Apply(m, b);
    CloseCallsStay(m, b);
    assert next.closer == m.closer && (m.worker.Done? ==> next.worker.Done?);
    if a.Lock? {
      assert forall i :: 0 <= i < |next.calls| ==> !Reading(next.calls[i]);
    }
  }

  lemma {:induction false} OthersDoNotDisableSender(m: Machine, a: Action, b: Action)
    requires Enabled(m, a) && PartyOf(a).Sender? && Enabled(m, b) && PartyOf(b) != PartyOf(a)
    ensures Enabled(Apply(m, b), a)
  {
    var next := Apply(m, b);
    assert a.i < |next.calls| && next.calls[a.i] == m.calls[a.i];
  }

  lemma {:induction false} CloseCallsStay(m: Machine, a: Action)
    requires Enabled(m, a)
    ensures |m.closeCalls| <= |Apply(m, a).closeCalls|
  {
  }

  /** A step Close waits for, once possible, stays possible until its own party moves. */
  lemma {:induction false} OthersDoNotDisable(m: Machine, a: Action, b: Action)
    requires Enabled(m, a) && Needed(m, a) && Enabled(m, b) && PartyOf(b) != PartyOf(a)
    ensures Enabled(Apply(m, b), a)
  {
    match PartyOf(a) {
      case TheWorker => OthersDoNotDisableWorker(m, a, b);
      case TheCloser => OthersDoNotDisableCloser(m, a, b);
      case Sender(_) => OthersDoNotDisableSender(m, a, b);
    }
  }

  /** The steps of the party are needed ones while the party has a needed one to take. */
  lemma {:induction false} SamePartyIsNeeded(m: Machine, a: Action, b: Action)
    requires Enabled(m, a) && Needed(m, a) && Enabled(m, b) && PartyOf(b) == PartyOf(a)
    ensures Needed(m, b)
  {
  }

  // ------------------------------------------------------------------- unending behaviours

  /** An unending run is the state before each step, and the step. */
  ghost predicate Follows(s: nat -> Machine, act: nat -> Action, n: nat) {
    Enabled(s(n), act(n)) && s(n + 1) == Apply(s(n), act(n))
  }

  ghost predicate Behaviour(s: nat -> Machine, act: nat -> Action) {
    forall n: nat :: Follows(s, act, n)
  }

  ghost predicate StaysEnabled(s: nat -> Machine, n: nat, a: Action) {
    forall k: nat :: n <= k ==> Enabled(s(k), a)
  }

  ghost predicate MovesAfter(act: nat -> Action, n: nat, p: Party) {
    exists k: nat :: n <= k && PartyOf(act(k)) == p
  }

  /** Whoever can take one step from some point on does take a step. */
  ghost predicate Fair(s: nat -> Machine, act: nat -> Action) {
    forall n: nat, a: Action :: StaysEnabled(s, n, a) ==> MovesAfter(act, n, PartyOf(a))
  }

  ghost predicate Closing(m: Machine) {
    Inv(m) && m.closeCalls != []
  }

  lemma {:induction false} StepKeepsClosing(m: Machine, a: Action)
    requires Closing(m) && Enabled(m, a)
    ensures Closing(Apply(m, a))
  {
    StepKeeps(m, a);
    CloseCallsStay(m, a);
  }

  lemma {:induction false} KeepsClosing(s: nat -> Machine, act: nat -> Action, n: nat, k: nat)
    requires Behaviour(s, act) && Closing(s(n)) && n <= k
    ensures Closing(s(k))
    decreases k
  {
    if n < k {
      KeepsClosing(s, act, n, k - 1);
      assert Follows(s, act, k - 1);
      StepKeepsClosing(s(k - 1), act(k - 1));
    }
  }

  /** Close has asked for the lock, and at most so many of the steps it waits for are left. */
  ghost predicate Within(m: Machine, bound: nat) {
    Closing(m) && !m.closer.Open? && Backlog(m) <= bound
  }

  lemma {:induction false} StepStaysWithin(m: Machine, a: Action, next: Machine, bound: nat)
    requires Within(m, bound) && Enabled(m, a) && next == Apply(m, a)
    ensures Within(next, bound) && (Needed(m, a) ==> bound > 0 && Within(next, bound - 1))
  {
    StepKeepsClosing(m, a);
    BacklogShrinks(m, a);
  }

  lemma {:induction false} StaysWithin(s: nat -> Machine, act: nat -> Action, n: nat, k: nat, bound: nat)
    requires Behaviour(s, act) && Within(s(n), bound) && n <= k
    ensures Within(s(k), bound)
    decreases k
  {
    if n < k {
      StaysWithin(s, act, n, k - 1, bound);
      assert Follows(s, act, k - 1);
      StepStaysWithin(s(k - 1), act(k - 1), s(k), bound);
    }
  }

  /** While nobody takes a needed step, one that is possible stays so. */
  lemma {:induction false} NeededStays(s: nat -> Machine, act: nat -> Action, n: nat, a: Action, k: nat)
    requires Behaviour(s, act) && Enabled(s(n), a) && Needed(s(n), a) && n <= k
    requires forall j: nat :: n <= j ==> !Needed(s(j), act(j))
    ensures Enabled(s(k), a) && Needed(s(k), a)
    decreases k
  {
    if n < k {
      var m, b := s(k - 1), act(k - 1);
      NeededStays(s, act, n, a, k - 1);
      assert Follows(s, act, k - 1);
      if PartyOf(b) == PartyOf(a) {
        SamePartyIsNeeded(m, a, b);
      }
      OthersDoNotDisable(m, a, b);
    }
  }

  lemma {:induction false} WaitingIsNotForever(s: nat -> Machine, act: nat -> Action, n: nat, a: Action)
    requires Behaviour(s, act) && Fair(s, act) && Enabled(s(n), a) && Needed(s(n), a)
    ensures exists k: nat :: n <= k && Needed(s(k), act(k))
  {
    if forall j: nat :: n <= j ==> !Needed(s(j), act(j)) {
      forall j: nat | n <= j ensures Enabled(s(j), a) && Needed(s(j), a) {
        NeededStays(s, act, n, a, j);
      }
      assert StaysEnabled(s, n, a);
      assert MovesAfter(act, n, PartyOf(a));
      var j: nat :| n <= j && PartyOf(act(j)) == PartyOf(a);
      assert Follows(s, act, j);
      SamePartyIsNeeded(s(j), a, act(j));
    }
  }

  /** A step Close waits for is taken. */
  lemma {:induction false} NeededComes(s: nat -> Machine, act: nat -> Action, n: nat) returns (k: nat)
    requires Behaviour(s, act) && Fair(s, act) && Closing(s(n)) && !s(n).closer.Finished?
    ensures n <= k && Needed(s(k), act(k))
  {
    var a := CloseCanMove(s(n));
    WaitingIsNotForever(s, act, n, a);
    k :| n <= k && Needed(s(k), act(k));
  }

  /** From the lock on, by the backlog. */
  lemma {:induction false} LockedFinishes(s: nat -> Machine, act: nat -> Action, n: nat, bound: nat) returns (k: nat)
    requires Behaviour(s, act) && Fair(s, act) && Within(s(n), bound)
    ensures n <= k && s(k).closer.Finished?
    decreases bound
  {
    if s(n).closer.Finished? {
      return n;
    }
    var j := NeededComes(s, act, n);
    StaysWithin(s, act, n, j, bound);
    assert Follows(s, act, j);
    StepStaysWithin(s(j), act(j), s(j + 1), bound);
    k := LockedFinishes(s, act, j + 1, bound - 1);
  }

  lemma {:induction false} CloserLeavesOpen(s: nat -> Machine, act: nat -> Action, n: nat)
    requires Behaviour(s, act) && PartyOf(act(n)) == TheCloser
    ensures !s(n + 1).closer.Open?
  {
    assert Follows(s, act, n);
  }

  /** Asking for the lock is always possible, so it happens. */
  lemma {:induction false} LockIsAskedFor(s: nat -> Machine, act: nat -> Action, n: nat) returns (k: nat)
    requires Behaviour(s, act) && Fair(s, act) && Closing(s(n))
    ensures n <= k && !s(k).closer.Open?
  {
    if forall j: nat :: n <= j ==> s(j).closer.Open? {
      forall j: nat | n <= j ensures Enabled(s(j), Announce) {
        KeepsClosing(s, act, n, j);
      }
      assert StaysEnabled(s, n, Announce);
      assert MovesAfter(act, n, TheCloser);
      var j: nat :| n <= j && PartyOf(act(j)) == TheCloser;
      CloserLeavesOpen(s, act, j);
    }
    k :| n <= k && !s(k).closer.Open?;
  }

  /**
   In every unending behaviour in which whoever can move from some point on does move, a Close
   that has been entered finishes, however many Sends keep coming, and everything accepted has
   then been handed to the inner sender.
   */
  lemma {:induction false} CloseFinishes(s: nat -> Machine, act: nat -> Action, n: nat) returns (k: nat)
    requires Behaviour(s, act) && Fair(s, act) && Inv(s(n)) && s(n).closeCalls != []
    ensures n <= k && s(k).closer.Finished? && Handed(s(k).log) == ItemsOf(s(k).accepted)
  {
    var j := LockIsAskedFor(s, act, n);
    KeepsClosing(s, act, n, j);
    k := LockedFinishes(s, act, j, Backlog(s(j)));
    KeepsClosing(s, act, n, k);
    assert Handed(s(k).log) + ([] + []) == Handed(s(k).log);
  }
}
