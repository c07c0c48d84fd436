/**
 The fault-report protocol, x1/report.go: a key is reserved, a report or a retraction is sent,
 and the reservation is settled by what the send established. The object first; then a state
 machine in which attempts of any number of callers interleave.
 */
module FaultReporter {
  import opened Wrappers

  datatype Scope = Element | TaskScope | DestinationScope

  datatype Key = Key(scope: Scope, id: string, condition: string)

  /** 30 s in nanoseconds. */
  const THROTTLE: int := 30_000_000_000

  datatype Records = Records(lastSent: map<Key, int>, sending: set<Key>, reported: set<Key>)

  predicate MayReport(s: Records, k: Key, now: int) {
    k !in s.sending && (k in s.lastSent ==> now - s.lastSent[k] >= THROTTLE)
  }

  predicate MayClear(s: Records, k: Key) {
    k !in s.sending && k in s.reported
  }

  function Reserved(s: Records, k: Key): Records {
    s.(sending := s.sending + {k})
  }

  function Released(s: Records, k: Key): Records {
    s.(sending := s.sending - {k})
  }

  function Committed(s: Records, k: Key, now: int): Records {
    Records(s.lastSent[k := now], s.sending - {k}, s.reported + {k})
  }

  function Cleared(s: Records, k: Key): Records {
    Records(s.lastSent - {k}, s.sending - {k}, s.reported - {k})
  }

  function Settled(s: Records, k: Key, retraction: bool, delivered: bool, now: int): Records {
    if !delivered then Released(s, k)
    else if retraction then Cleared(s, k)
    else Committed(s, k, now)
  }

  /** A report or retraction made start to end with nobody else moving, decided and settled when it is. */
  function Notified(s: Records, k: Key, retraction: bool, delivered: bool, decided: int, settled: int): Records {
    if (if retraction then MayClear(s, k) else MayReport(s, k, decided))
    then Settled(Reserved(s, k), k, retraction, delivered, settled)
    else s
  }

  class Reporter {
    var lastSent: map<Key, int>
    var sending: set<Key>
    var reported: set<Key>

    ghost function State(): Records
      reads this
    {
      Records(lastSent, sending, reported)
    }

    constructor ()
      ensures State() == Records(map[], {}, {})
    {
      lastSent, sending, reported := map[], {}, {};
    }

    method Reserve(k: Key, now: int) returns (ok: bool)
      modifies this`sending
      ensures ok <==> k !in old(sending) && (k in lastSent ==> now - lastSent[k] >= 30_000_000_000)
      ensures ok <==> MayReport(old(State()), k, now)
      ensures State() == if ok then Reserved(old(State()), k) else old(State())
      ensures sending == if ok then old(sending) + {k} else old(sending)
    {
      if k in sending {
        return false;
      }
      if k in lastSent && now - lastSent[k] < THROTTLE {
        return false;
      }
      sending := sending + {k};
      ok := true;
    }

    method Commit(k: Key, now: int)
      modifies this
      ensures State() == Committed(old(State()), k, now)
    {
      sending := sending - {k};
      lastSent := lastSent[k := now];
      reported := reported + {k};
    }

    method Release(k: Key)
      modifies this`sending
      ensures State() == Released(old(State()), k)
    {
      sending := sending - {k};
    }

    method Settle(k: Key, delivered: bool, now: int)
      modifies this
      ensures State() == Settled(old(State()), k, false, delivered, now)
    {
      if !delivered {
        Release(k);
        return;
      }
      Commit(k, now);
    }

    method Clearing(k: Key) returns (ok: bool)
      modifies this`sending
      ensures ok <==> k !in old(sending) && k in reported
      ensures ok <==> MayClear(old(State()), k)
      ensures State() == if ok then Reserved(old(State()), k) else old(State())
    {
      if k in sending {
        return false;
      }
      if k !in reported {
        return false;
      }
      sending := sending + {k};
      ok := true;
    }

    method CommitClear(k: Key)
      modifies this
      ensures State() == Cleared(old(State()), k)
    {
      sending := sending - {k};
      reported := reported - {k};
      lastSent := lastSent - {k};
    }

    method SettleClear(k: Key, delivered: bool)
      modifies this
      ensures forall now :: State() == Settled(old(State()), k, true, delivered, now)
    {
      if !delivered {
        Release(k);
        return;
      }
      CommitClear(k);
    }

    /** NotifyDestinationFault and NotifyElementFault, given the outcome the send would have. */
    method NotifyFault(k: Key, delivered: bool, decided: int, settled: int) returns (sent: bool)
      modifies this
      ensures State() == Notified(old(State()), k, false, delivered, decided, settled)
      ensures sent <==> MayReport(old(State()), k, decided)
    {
      sent := Reserve(k, decided);
      if sent {
        Settle(k, delivered, settled);
      }
    }

    /** NotifyDestinationClear and NotifyElementClear. */
    method NotifyClear(k: Key, delivered: bool) returns (sent: bool)
      modifies this
      ensures forall decided, settled :: State() == Notified(old(State()), k, true, delivered, decided, settled)
      ensures sent <==> MayClear(old(State()), k)
    {
      sent := Clearing(k);
      if sent {
        SettleClear(k, delivered);
      }
    }
  }

  // ------------------------------------------------------------------------ concurrently

  datatype Attempt = Attempt(key: Key, retraction: bool)

  /** A send the ADMF acknowledged. */
  datatype Ack = Ack(key: Key, retraction: bool, at: int)

  datatype Machine = Machine(clock: int, records: Records, inFlight: map<nat, Attempt>, acks: seq<Ack>)

  datatype Action =
    | Tick(elapsed: nat)
    | Report(id: nat, k: Key)
    | Retract(id: nat, k: Key)
    | Finish(id: nat, delivered: bool)

  predicate Enabled(m: Machine, a: Action) {
    match a
    case Tick(_) => true
    case Report(id, _) => id !in m.inFlight
    case Retract(id, _) => id !in m.inFlight
    case Finish(id, _) => id in m.inFlight
  }

  function Begin(m: Machine, id: nat, attempt: Attempt): Machine {
    m.(records := Reserved(m.records, attempt.key), inFlight := m.inFlight[id := attempt])
  }

  function Apply(m: Machine, a: Action): Machine
    requires Enabled(m, a)
  {
    match a
    case Tick(elapsed) => m.(clock := m.clock + elapsed)
    case Report(id, k) => if MayReport(m.records, k, m.clock) then Begin(m, id, Attempt(k, false)) else m
    case Retract(id, k) => if MayClear(m.records, k) then Begin(m, id, Attempt(k, true)) else m
    case Finish(id, delivered) =>
      var attempt := m.inFlight[id];
      m.(records := Settled(m.records, attempt.key, attempt.retraction, delivered, m.clock),
         inFlight := m.inFlight - {id},
         acks := if delivered then m.acks + [Ack(attempt.key, attempt.retraction, m.clock)] else m.acks)
  }

  /** When the fault now standing at a key was acknowledged, if one stands. */
  function Standing(acks: seq<Ack>, k: Key): Option<int> {
    if acks == [] then None
    else
      var last := acks[|acks| - 1];
      if last.key != k then Standing(acks[..|acks| - 1], k)
      else if last.retraction then None
      else Some(last.at)
  }

  /** A retraction needs a standing fault; a fault over a standing one needs the throttle. */
  predicate Due(acks: seq<Ack>, a: Ack) {
    var standing := Standing(acks, a.key);
    if a.retraction then standing.Some?
    else standing.Some? ==> a.at - standing.value >= THROTTLE
  }

  ghost predicate Orderly(acks: seq<Ack>) {
    forall i :: 0 <= i < |acks| ==> Due(acks[..i], acks[i])
  }

  /** The records are what the acknowledgements say. */
  ghost predicate Recorded(s: Records, acks: seq<Ack>) {
    && s.reported == s.lastSent.Keys
    && forall k :: Standing(acks, k) == if k in s.lastSent then Some(s.lastSent[k]) else None
  }

  ghost predicate OnePerKey(s: Records, inFlight: map<nat, Attempt>) {
    && (forall i :: i in inFlight ==> inFlight[i].key in s.sending)
    && (forall i, j :: i in inFlight && j in inFlight && i != j ==> inFlight[i].key != inFlight[j].key)
    && (forall k :: k in s.sending ==> exists i :: i in inFlight && inFlight[i].key == k)
  }

  /** An attempt in flight will be due whenever it is acknowledged. */
  predicate Ready(s: Records, clock: int, a: Attempt) {
    if a.retraction then a.key in s.lastSent
    else a.key in s.lastSent ==> clock - s.lastSent[a.key] >= THROTTLE
  }

  ghost predicate Inv(m: Machine) {
    && OnePerKey(m.records, m.inFlight)
    && (forall i :: i in m.inFlight ==> Ready(m.records, m.clock, m.inFlight[i]))
    && Recorded(m.records, m.acks)
    && Orderly(m.acks)
  }

  lemma {:induction false} StandingAfter(acks: seq<Ack>, a: Ack, k: Key)
    ensures Standing(acks + [a], k) ==
      if a.key != k then Standing(acks, k) else if a.retraction then None else Some(a.at)
  {
    assert (acks + [a])[..|acks|] == acks;
  }

  lemma {:induction false} OrderlyAfter(acks: seq<Ack>, a: Ack)
    requires Orderly(acks) && Due(acks, a)
    ensures Orderly(acks + [a])
  {
    forall i | 0 <= i < |acks + [a]| ensures Due((acks + [a])[..i], (acks + [a])[i]) {
      if i < |acks| {
        assert (acks + [a])[..i] == acks[..i];
      } else {
        assert (acks + [a])[..i] == acks;
      }
    }
  }

  lemma {:induction false} AckRecords(s: Records, acks: seq<Ack>, a: Ack)
    requires Recorded(s, acks)
    ensures Recorded(Settled(s, a.key, a.retraction, true, a.at), acks + [a])
  {
    var after := Settled(s, a.key, a.retraction, true, a.at);
    forall k ensures Standing(acks + [a], k) == if k in after.lastSent then Some(after.lastSent[k]) else None {
      StandingAfter(acks, a, k);
    }
  }

  lemma {:induction false} FinishKeepsKeys(m: Machine, id: nat, delivered: bool)
    requires OnePerKey(m.records, m.inFlight) && id in m.inFlight
    ensures var after := Apply(m, Finish(id, delivered)); OnePerKey(after.records, after.inFlight)
  {
    var after := Apply(m, Finish(id, delivered));
    forall k | k in after.records.sending ensures exists i :: i in after.inFlight && after.inFlight[i].key == k {
      var i :| i in m.inFlight && m.inFlight[i].key == k;
      assert i in after.inFlight && after.inFlight[i].key == k;
    }
  }

  lemma {:induction false} BeginKeepsKeys(m: Machine, id: nat, attempt: Attempt)
    requires OnePerKey(m.records, m.inFlight) && id !in m.inFlight && attempt.key !in m.records.sending
    ensures var after := Begin(m, id, attempt); OnePerKey(after.records, after.inFlight)
  {
    var after := Begin(m, id, attempt);
    forall k | k in after.records.sending ensures exists i :: i in after.inFlight && after.inFlight[i].key == k {
      if k == attempt.key {
        assert after.inFlight[id].key == k;
      } else {
        var i :| i in m.inFlight && m.inFlight[i].key == k;
        assert after.inFlight[i].key == k;
      }
    }
  }

  lemma {:induction false} FinishKeeps(m: Machine, id: nat, delivered: bool)
    requires Inv(m) && id in m.inFlight
    ensures Inv(Apply(m, Finish(id, delivered)))
  {
    FinishKeepsKeys(m, id, delivered);
    if delivered {
      var a := Ack(m.inFlight[id].key, m.inFlight[id].retraction, m.clock);
      assert Ready(m.records, m.clock, m.inFlight[id]);
      OrderlyAfter(m.acks, a);
      AckRecords(m.records, m.acks, a);
    }
  }

  lemma {:induction false} StepKeeps(m: Machine, a: Action)
    requires Inv(m) && Enabled(m, a)
    ensures Inv(Apply(m, a))
  {
    match a {
      case Tick(_) =>
      case Report(id, k) =>
        if MayReport(m.records, k, m.clock) {
          BeginKeepsKeys(m, id, Attempt(k, false));
        }
      case Retract(id, k) =>
        if MayClear(m.records, k) {
          BeginKeepsKeys(m, id, Attempt(k, true));
        }
      case Finish(id, delivered) => FinishKeeps(m, id, delivered);
    }
  }

  ghost predicate Run(m: Machine, actions: seq<Action>)
    decreases |actions|
  {
    actions != [] ==> Enabled(m, actions[0]) && Run(Apply(m, actions[0]), actions[1..])
  }

  ghost function Exec(m: Machine, actions: seq<Action>): Machine
    requires Run(m, actions)
    decreases |actions|
  {
    if actions == [] then m else Exec(Apply(m, actions[0]), actions[1..])
  }

  lemma {:induction false} RunKeeps(m: Machine, actions: seq<Action>)
    requires Inv(m) && Run(m, actions)
    ensures Inv(Exec(m, actions))
    decreases |actions|
  {
    if actions != [] {
      StepKeeps(m, actions[0]);
      RunKeeps(Apply(m, actions[0]), actions[1..]);
    }
  }

  function Start(clock: int): Machine {
    Machine(clock, Records(map[], {}, {}), map[], [])
  }

  /** No acknowledged retraction of k between two places. */
  ghost predicate NoClearBetween(acks: seq<Ack>, k: Key, i: int, j: int) {
    forall n :: 0 <= n < |acks| && i < n < j ==> !(acks[n].key == k && acks[n].retraction)
  }

  lemma {:induction false} StandingWitness(acks: seq<Ack>, k: Key) returns (j: nat)
    requires Standing(acks, k).Some?
    ensures j < |acks| && acks[j] == Ack(k, false, Standing(acks, k).value)
    ensures NoClearBetween(acks, k, j, |acks|)
  {
    j := |acks| - 1;
    if acks[j].key != k {
      j := StandingWitness(acks[..j], k);
      var n := |acks| - 1;
      forall i | 0 <= i < |acks| && j < i < |acks| ensures !(acks[i].key == k && acks[i].retraction) {
        if i < n {
          assert acks[i] == acks[..n][i];
        }
      }
    }
  }

  /** A fault acknowledged and not retracted since still stands, at its time or a later one. */
  lemma {:induction false} FaultStands(acks: seq<Ack>, k: Key, i: nat)
    requires Orderly(acks) && i < |acks| && acks[i].key == k && !acks[i].retraction
    requires NoClearBetween(acks, k, i, |acks|)
    ensures Standing(acks, k).Some? && Standing(acks, k).value >= acks[i].at
  {
    var n := |acks| - 1;
    if i < n {
      var front := acks[..n];
      forall j | 0 <= j < |front| ensures Due(front[..j], front[j]) {
        assert front[..j] == acks[..j];
      }
      forall j | 0 <= j < |front| && i < j < |front| ensures !(front[j].key == k && front[j].retraction) {
        assert front[j] == acks[j];
      }
      FaultStands(front, k, i);
      assert Due(acks[..n], acks[n]);
    }
  }

  /**
   Over every interleaving: one send in flight per key, the two records hold the same keys,
   and the acknowledgements so far are orderly.
   */
  lemma {:induction false} ReportsAreOrderly(clock: int, actions: seq<Action>)
    requires Run(Start(clock), actions)
    ensures var m := Exec(Start(clock), actions);
      && (forall i, j :: i in m.inFlight && j in m.inFlight && i != j ==> m.inFlight[i].key != m.inFlight[j].key)
      && m.records.reported == m.records.lastSent.Keys
      && Orderly(m.acks)
      && Recorded(m.records, m.acks)
  {
    RunKeeps(Start(clock), actions);
  }

  /** Every acknowledged clear follows an acknowledged fault with no acknowledged clear between. */
  lemma {:induction false} ClearFollowsFault(clock: int, actions: seq<Action>, i: nat) returns (j: nat)
    requires Run(Start(clock), actions)
    requires i < |Exec(Start(clock), actions).acks| && Exec(Start(clock), actions).acks[i].retraction
    ensures var acks := Exec(Start(clock), actions).acks;
      j < i && acks[j].key == acks[i].key && !acks[j].retraction && NoClearBetween(acks, acks[i].key, j, i)
  {
    RunKeeps(Start(clock), actions);
    var acks := Exec(Start(clock), actions).acks;
    assert Due(acks[..i], acks[i]);
    j := StandingWitness(acks[..i], acks[i].key);
    forall n | 0 <= n < |acks| && j < n < i ensures !(acks[n].key == acks[i].key && acks[n].retraction) {
      assert acks[n] == acks[..i][n];
    }
  }

  /** Two acknowledged faults with no acknowledged clear between are at least 30 s apart. */
  lemma {:induction false} FaultsAreSpaced(clock: int, actions: seq<Action>, i: nat, j: nat)
    requires Run(Start(clock), actions)
    requires i < j < |Exec(Start(clock), actions).acks|
    requires var acks := Exec(Start(clock), actions).acks;
      acks[i].key == acks[j].key && !acks[i].retraction && !acks[j].retraction
        && NoClearBetween(acks, acks[i].key, i, j)
    ensures var acks := Exec(Start(clock), actions).acks; acks[j].at - acks[i].at >= 30_000_000_000
  {
    RunKeeps(Start(clock), actions);
    var acks := Exec(Start(clock), actions).acks;
    SpacedInLog(acks, i, j);
  }

  lemma {:induction false} SpacedInLog(acks: seq<Ack>, i: nat, j: nat)
    requires Orderly(acks) && i < j < |acks|
    requires acks[i].key == acks[j].key && !acks[i].retraction && !acks[j].retraction
    requires NoClearBetween(acks, acks[i].key, i, j)
    ensures acks[j].at - acks[i].at >= THROTTLE
  {
    var front := acks[..j];
    forall n | 0 <= n < |front| ensures Due(front[..n], front[n]) {
      assert front[..n] == acks[..n];
    }
    forall n | 0 <= n < |front| && i < n < |front| ensures !(front[n].key == acks[i].key && front[n].retraction) {
      assert front[n] == acks[n];
    }
    FaultStands(front, acks[i].key, i);
    assert Due(acks[..j], acks[j]);
  }

  // ------------------------------------------------------------- when an attempt is admitted

  /** The ADMF was told of a fault here and has not been told since that it is over. */
  ghost predicate Outstanding(acks: seq<Ack>, k: Key, i: nat) {
    i < |acks| && acks[i].key == k && !acks[i].retraction && NoClearBetween(acks, k, i, |acks|)
  }

  lemma {:induction false} StandingIsOutstanding(acks: seq<Ack>, k: Key)
    requires Orderly(acks)
    ensures Standing(acks, k).Some? <==> exists i: nat :: Outstanding(acks, k, i)
    ensures Standing(acks, k).Some? ==>
      && (exists i: nat :: Outstanding(acks, k, i) && acks[i].at == Standing(acks, k).value)
      && forall i: nat :: Outstanding(acks, k, i) ==> acks[i].at <= Standing(acks, k).value
  {
    if Standing(acks, k).Some? {
      var j := StandingWitness(acks, k);
      assert Outstanding(acks, k, j);
    }
    forall i: nat | Outstanding(acks, k, i)
      ensures Standing(acks, k).Some? && acks[i].at <= Standing(acks, k).value
    {
      FaultStands(acks, k, i);
    }
  }

  lemma {:induction false} AdmittedFrom(m: Machine, id: nat, k: Key)
    requires Inv(m) && id !in m.inFlight && forall i :: i in m.inFlight ==> m.inFlight[i].key != k
    ensures id in Apply(m, Report(id, k)).inFlight <==>
      forall i: nat :: Outstanding(m.acks, k, i) ==> m.clock - m.acks[i].at >= 30_000_000_000
    ensures id in Apply(m, Retract(id, k)).inFlight <==> exists i: nat :: Outstanding(m.acks, k, i)
  {
    StandingIsOutstanding(m.acks, k);
    assert k !in m.records.sending;
  }

  /**
   Over every run, with nothing in flight for the key: a fault report is admitted if and only if
   every fault outstanding there was acknowledged at least 30 s ago, and a retraction if and only
   if one is outstanding.
   */
  lemma {:induction false} AdmittedExactlyWhen(clock: int, actions: seq<Action>, id: nat, k: Key)
    requires Run(Start(clock), actions)
    requires var m := Exec(Start(clock), actions);
      id !in m.inFlight && forall i :: i in m.inFlight ==> m.inFlight[i].key != k
    ensures var m := Exec(Start(clock), actions);
      && (id in Apply(m, Report(id, k)).inFlight <==>
            forall i: nat :: Outstanding(m.acks, k, i) ==> m.clock - m.acks[i].at >= 30_000_000_000)
      && (id in Apply(m, Retract(id, k)).inFlight <==> exists i: nat :: Outstanding(m.acks, k, i))
  {
    RunKeeps(Start(clock), actions);
    AdmittedFrom(Exec(Start(clock), actions), id, k);
  }

  /** While an attempt is in flight for a key no other is admitted, and settling one frees the key. */
  lemma {:induction false} BusyKeyIsRefused(m: Machine, busy: nat, id: nat, delivered: bool)
    requires Inv(m) && busy in m.inFlight && id !in m.inFlight
    ensures var k := m.inFlight[busy].key;
      && Apply(m, Report(id, k)) == m && Apply(m, Retract(id, k)) == m
      && (forall i :: i in Apply(m, Finish(busy, delivered)).inFlight ==>
            Apply(m, Finish(busy, delivered)).inFlight[i].key != k)
      && Apply(m, Finish(busy, delivered)).acks ==
           m.acks + if delivered then [Ack(k, m.inFlight[busy].retraction, m.clock)] else []
  {
    assert m.acks + [] == m.acks;
  }

  /** A standing fault may be reported again once 30 s have passed, and not a tick sooner. */
  lemma {:induction false} RepeatAdmittedWhenDue(m: Machine, id: nat, k: Key, elapsed: nat)
    requires Inv(m) && id !in m.inFlight && (forall i :: i in m.inFlight ==> m.inFlight[i].key != k)
    requires Standing(m.acks, k).Some?
    ensures var later := Apply(m, Tick(elapsed));
      && later.clock == m.clock + elapsed
      && (id in Apply(later, Report(id, k)).inFlight <==>
            m.clock + elapsed >= Standing(m.acks, k).value + 30_000_000_000)
  {
    assert k !in m.records.sending;
  }
}
