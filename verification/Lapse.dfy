/**
 The keepalive fail-safe, x1/x1.go: requests record their activity before they are applied,
 and a watcher that finds the ADMF quiet re-checks under the transition lock before it purges.
 Each lock region is one step, and steps of requests, clock and watcher interleave freely.
 */
module Lapse {
  import opened Wrappers
  import opened Types
  import opened TaskStore
  import opened Tasking
  import opened TaskingProperties
  import opened TaskingAnswers

  datatype Watcher =
    | Watching
    | Decided                      // found the ADMF quiet, holds nothing
    | Locked(checkedAt: int)       // found it quiet again, holds the transition lock

  /** A task a lapse purge removed: when the message that stored it was recorded. */
  datatype Casualty = Casualty(task: Task, storedAt: int, checkedAt: int)

  datatype Machine = Machine(
    clock: int,
    lastSeen: int,
    server: State,
    events: seq<Event>,
    recorded: map<nat, int>,       // requests recorded but not applied yet, and when
    storedAt: map<TaskId, int>,    // when the message that last stored each task was recorded
    watcher: Watcher,
    casualties: seq<Casualty>)

  datatype Action =
    | Tick(elapsed: nat)
    | Reject                       // a message that fails authentication
    | Record(id: nat)              // recordActivity for a message that passed
    | Serve(id: nat, m: Message)   // apply it
    | Seed                         // WatchKeepalive starting
    | Decide
    | Recheck
    | PurgeNow

  predicate DestinationWellFormed(destination: Option<DestinationDetails>) {
    destination.Some? &&
    var d := destination.value;
    IsUuid(d.did) && Products(d.deliveryType).Some? && ExtensionsHonourable(d.extensions) && d.address.Some?
  }

  /** The messages that reach the transition lock. */
  predicate NeedsLock(cfg: Config, m: Message) {
    match m
    case ActivateTask(_, _) => true
    case ModifyTask(_, _) => true
    case DeactivateTask(xid) => IsUuid(xid)
    case DeactivateAllTasks => !cfg.deactivateAllDisabled
    case RemoveAllDestinations => cfg.removeAllEnabled
    case CreateDestination(d) => DestinationWellFormed(d)
    case _ => false
  }

  predicate Lapsed(m: Machine, timeout: int) {
    m.clock - m.lastSeen > timeout
  }

  predicate Enabled(cfg: Config, m: Machine, a: Action) {
    match a
    case Record(id) => id !in m.recorded
    case Serve(id, msg) => id in m.recorded && !(NeedsLock(cfg, msg) && m.watcher.Locked?)
    case Decide => m.watcher.Watching?
    case Recheck => m.watcher.Decided?
    case PurgeNow => m.watcher.Locked?
    case _ => true
  }

  /** The task a message stores, if it is acknowledged and stores one. */
  function Stores(m: Message, answer: Answer): Option<TaskId> {
    if (m.ActivateTask? || m.ModifyTask?) && answer.Acknowledged? && m.details.Some? then Some(m.details.value.xid)
    else None
  }

  function StampsAfter(stamps: map<TaskId, int>, tasks: map<TaskId, Task>, stored: Option<TaskId>,
      at: int): map<TaskId, int> {
    map xid | xid in tasks :: if stored == Some(xid) || xid !in stamps then at else stamps[xid]
  }

  function Casualties(tasks: seq<Task>, stamps: map<TaskId, int>, checkedAt: int): seq<Casualty>
    requires forall i :: 0 <= i < |tasks| ==> tasks[i].xid in stamps
  {
    seq(|tasks|, i requires 0 <= i < |tasks| => Casualty(tasks[i], stamps[tasks[i].xid], checkedAt))
  }

  ghost predicate Sound(m: Machine) {
    KeyedByXid(m.server) && m.storedAt.Keys == m.server.tasks.Keys
  }

  lemma {:induction false} ListedIsStamped(m: Machine)
    requires KeyedByXid(m.server) && m.storedAt.Keys == m.server.tasks.Keys
    ensures var out := Listing(m.server.tasks); forall i :: 0 <= i < |out| ==> out[i].xid in m.storedAt
  {
    var out := Listing(m.server.tasks);
    forall i | 0 <= i < |out| ensures out[i].xid in m.storedAt {
      assert out[i] in out;
    }
  }

  ghost function Apply(cfg: Config, timeout: int, m: Machine, a: Action): Machine
    requires Sound(m) && Enabled(cfg, m, a)
  {
    match a
    case Tick(elapsed) => m.(clock := m.clock + elapsed)
    case Reject => m
    case Record(id) => m.(lastSeen := m.clock, recorded := m.recorded[id := m.clock])
    case Serve(id, msg) =>
      var o := Step(cfg, m.server, msg);
      m.(server := o.state,
         events := m.events + o.events,
         recorded := m.recorded - {id},
         storedAt := StampsAfter(m.storedAt, o.state.tasks, Stores(msg, o.answer), m.recorded[id]))
    case Seed => m.(lastSeen := m.clock)
    case Decide => if Lapsed(m, timeout) then m.(watcher := Decided) else m
    case Recheck => m.(watcher := if Lapsed(m, timeout) then Locked(m.clock) else Watching)
    case PurgeNow =>
      ListedIsStamped(m);
      m.(server := m.server.(tasks := map[]),
         events := m.events + Purge(m.server, KeepaliveLapse).events,
         storedAt := map[],
         watcher := Watching,
         casualties := m.casualties + Casualties(Listing(m.server.tasks), m.storedAt, m.watcher.checkedAt))
  }

  // -------------------------------------------------------------------------- invariant

  ghost predicate Timely(m: Machine) {
    && m.lastSeen <= m.clock
    && (forall id :: id in m.recorded ==> m.recorded[id] <= m.lastSeen)
    && (forall xid :: xid in m.storedAt ==> m.storedAt[xid] <= m.lastSeen)
  }

  /** While the purge holds the lock, every held task was recorded too long ago. */
  ghost predicate StaleUnderLock(m: Machine, timeout: int) {
    m.watcher.Locked? ==>
      m.watcher.checkedAt <= m.clock &&
      forall xid :: xid in m.storedAt ==> m.storedAt[xid] + timeout < m.watcher.checkedAt
  }

  ghost predicate Stale(c: Casualty, timeout: int, clock: int) {
    c.storedAt + timeout < c.checkedAt <= clock
  }

  ghost predicate CasualtiesStale(m: Machine, timeout: int) {
    forall i :: 0 <= i < |m.casualties| ==> Stale(m.casualties[i], timeout, m.clock)
  }

  ghost predicate Among(t: Task, casualties: seq<Casualty>) {
    exists k :: 0 <= k < |casualties| && casualties[k].task == t
  }

  /** Every lapse removal the point of interception was told of is among the casualties. */
  ghost predicate RecountedIn(events: seq<Event>, casualties: seq<Casualty>) {
    forall i :: 0 <= i < |events| && events[i].Purged? && events[i].reason.KeepaliveLapse? ==>
      Among(events[i].task, casualties)
  }

  ghost predicate Recounted(m: Machine) {
    RecountedIn(m.events, m.casualties)
  }

  ghost predicate Tasked(cfg: Config, m: Machine) {
    && TaskingProperties.Inv(cfg, m.server)
    && Fold(map[], m.events) == m.server.tasks
    && Follows(map[], m.events)
  }

  ghost predicate Safe(cfg: Config, timeout: int, m: Machine) {
    && Sound(m) && Tasked(cfg, m) && Timely(m)
    && StaleUnderLock(m, timeout) && CasualtiesStale(m, timeout) && Recounted(m)
  }

  lemma {:induction false} ServeKeepsTasked(cfg: Config, m: Machine, msg: Message)
    requires Tasked(cfg, m)
    ensures KeyedByXid(m.server)
    ensures var o := Step(cfg, m.server, msg);
      && TaskingProperties.Inv(cfg, o.state) && KeyedByXid(o.state)
      && Fold(map[], m.events + o.events) == o.state.tasks
      && Follows(map[], m.events + o.events)
  {
    StepKeeps(cfg, m.server, msg);
    StepFolds(cfg, m.server, msg);
    var o := Step(cfg, m.server, msg);
    FoldOfConcat(map[], m.events, o.events);
    FollowsConcat(map[], m.events, o.events);
    StepKeeps(cfg, o.state, msg);
  }

  /** A message never reports a lapse. */
  lemma {:induction false} ServeTellsOfNoLapse(cfg: Config, s: State, msg: Message)
    requires KeyedByXid(s)
    ensures var o := Step(cfg, s, msg);
      forall i :: 0 <= i < |o.events| && o.events[i].Purged? ==> !o.events[i].reason.KeepaliveLapse?
  {
    if msg.DeactivateAllTasks? && !cfg.deactivateAllDisabled {
      RemovalsName(Listing(s.tasks), BulkDeactivate, Step(cfg, s, msg).events);
    }
  }

  lemma {:induction false} RemovalsName(tasks: seq<Task>, reason: Reason, events: seq<Event>)
    requires events == Removals(tasks, reason)
    ensures forall i :: 0 <= i < |events| && events[i].Purged? ==> events[i].reason == reason && events[i].task in tasks
  {
    if tasks != [] {
      var front, last := tasks[..|tasks| - 1], tasks[|tasks| - 1];
      var before := Removals(front, reason);
      RemovalsName(front, reason, before);
      assert events == before + Removal(last, reason);
      forall i | 0 <= i < |events| && events[i].Purged? ensures events[i].reason == reason && events[i].task in tasks {
        if i < |before| {
          assert events[i] == before[i];
        } else {
          assert events[i] == Removal(last, reason)[i - |before|];
        }
      }
    }
  }

  /** A message that cannot run under the purge's lock stores nothing and removes nothing. */
  lemma {:induction false} LockFreeStoresNothing(cfg: Config, s: State, msg: Message)
    requires KeyedByXid(s) && !NeedsLock(cfg, msg)
    ensures Step(cfg, s, msg).state == s && Stores(msg, Step(cfg, s, msg).answer) == None
  {
  }

  lemma {:induction false} ServeKeepsTimes(cfg: Config, timeout: int, m: Machine, id: nat, msg: Message)
    requires Sound(m) && Timely(m) && StaleUnderLock(m, timeout) && Enabled(cfg, m, Serve(id, msg))
    ensures var after := Apply(cfg, timeout, m, Serve(id, msg)); Timely(after) && StaleUnderLock(after, timeout)
  {
    if m.watcher.Locked? {
      LockFreeStoresNothing(cfg, m.server, msg);
      assert Apply(cfg, timeout, m, Serve(id, msg)).storedAt == m.storedAt;
    }
  }

  lemma {:induction false} ServeKeeps(cfg: Config, timeout: int, m: Machine, id: nat, msg: Message)
    requires Safe(cfg, timeout, m) && Enabled(cfg, m, Serve(id, msg))
    ensures Safe(cfg, timeout, Apply(cfg, timeout, m, Serve(id, msg)))
  {
    ServeKeepsTasked(cfg, m, msg);
    ServeTellsOfNoLapse(cfg, m.server, msg);
    ServeKeepsTimes(cfg, timeout, m, id, msg);
    var after := Apply(cfg, timeout, m, Serve(id, msg));
    assert after.storedAt.Keys == after.server.tasks.Keys;
    forall i | 0 <= i < |after.events| && after.events[i].Purged? && after.events[i].reason.KeepaliveLapse?
      ensures Among(after.events[i].task, after.casualties)
    {
      assert after.events[i] == m.events[i];
    }
  }

  lemma {:induction false} PurgeKeepsTasked(cfg: Config, m: Machine)
    requires Tasked(cfg, m) && KeyedByXid(m.server)
    ensures Fold(map[], m.events + Purge(m.server, KeepaliveLapse).events) == map[]
    ensures Follows(map[], m.events + Purge(m.server, KeepaliveLapse).events)
  {
    var events := Purge(m.server, KeepaliveLapse).events;
    PurgeFolds(m.server, KeepaliveLapse);
    FoldOfConcat(map[], m.events, events);
    FollowsConcat(map[], m.events, events);
  }

  lemma {:induction false} RecountedTogether(a: seq<Event>, c: seq<Casualty>, b: seq<Event>, d: seq<Casualty>)
    requires RecountedIn(a, c) && RecountedIn(b, d)
    ensures RecountedIn(a + b, c + d)
  {
    var events, all := a + b, c + d;
    forall i | 0 <= i < |events| && events[i].Purged? && events[i].reason.KeepaliveLapse?
      ensures Among(events[i].task, all)
    {
      if i < |a| {
        var k :| 0 <= k < |c| && c[k].task == a[i].task;
        assert all[k] == c[k];
      } else {
        var k :| 0 <= k < |d| && d[k].task == b[i - |a|].task;
        assert all[|c| + k] == d[k];
      }
    }
  }

  /** What a purge reports is what it removes. */
  lemma {:induction false} RemovalsRecounted(tasks: seq<Task>, events: seq<Event>, casualties: seq<Casualty>)
    requires events == Removals(tasks, KeepaliveLapse)
    requires |casualties| == |tasks| && forall i :: 0 <= i < |tasks| ==> casualties[i].task == tasks[i]
    ensures RecountedIn(events, casualties)
  {
    RemovalsName(tasks, KeepaliveLapse, events);
    forall i | 0 <= i < |events| && events[i].Purged? ensures Among(events[i].task, casualties) {
      var j :| 0 <= j < |tasks| && tasks[j] == events[i].task;
      assert casualties[j].task == events[i].task;
    }
  }

  lemma {:induction false} PurgeRecounts(cfg: Config, timeout: int, m: Machine, after: Machine)
    requires Sound(m) && Recounted(m) && m.watcher.Locked? && after == Apply(cfg, timeout, m, PurgeNow)
    ensures Recounted(after)
  {
    var out := Listing(m.server.tasks);
    ListedIsStamped(m);
    var events, casualties := Purge(m.server, KeepaliveLapse).events, Casualties(out, m.storedAt, m.watcher.checkedAt);
    RemovalsRecounted(out, events, casualties);
    RecountedTogether(m.events, m.casualties, events, casualties);
  }

  lemma {:induction false} PurgeMeetsOnlyStale(cfg: Config, timeout: int, m: Machine, after: Machine)
    requires Sound(m) && StaleUnderLock(m, timeout) && CasualtiesStale(m, timeout)
    requires m.watcher.Locked? && after == Apply(cfg, timeout, m, PurgeNow)
    ensures CasualtiesStale(after, timeout)
  {
    ListedIsStamped(m);
  }

  lemma {:induction false} PurgeKeeps(cfg: Config, timeout: int, m: Machine)
    requires Safe(cfg, timeout, m) && m.watcher.Locked?
    ensures Safe(cfg, timeout, Apply(cfg, timeout, m, PurgeNow))
  {
    var after := Apply(cfg, timeout, m, PurgeNow);
    PurgeKeepsTasked(cfg, m);
    PurgeMeetsOnlyStale(cfg, timeout, m, after);
    PurgeRecounts(cfg, timeout, m, after);
  }

  lemma {:induction false} StepIsSafe(cfg: Config, timeout: int, m: Machine, a: Action)
    requires Safe(cfg, timeout, m) && Enabled(cfg, m, a)
    ensures Safe(cfg, timeout, Apply(cfg, timeout, m, a))
  {
    match a {
      case Serve(id, msg) => ServeKeeps(cfg, timeout, m, id, msg);
      case PurgeNow => PurgeKeeps(cfg, timeout, m);
      case _ =>
    }
  }

  // ------------------------------------------------------------------------------- runs

  ghost predicate Run(cfg: Config, timeout: int, m: Machine, actions: seq<Action>)
    decreases |actions|
  {
    Sound(m) &&
    (actions != [] ==>
      Enabled(cfg, m, actions[0]) && Run(cfg, timeout, Apply(cfg, timeout, m, actions[0]), actions[1..]))
  }

  ghost function Exec(cfg: Config, timeout: int, m: Machine, actions: seq<Action>): Machine
    requires Run(cfg, timeout, m, actions)
    decreases |actions|
  {
    if actions == [] then m else Exec(cfg, timeout, Apply(cfg, timeout, m, actions[0]), actions[1..])
  }

  lemma {:induction false} RunIsSafe(cfg: Config, timeout: int, m: Machine, actions: seq<Action>)
    requires Safe(cfg, timeout, m) && Run(cfg, timeout, m, actions)
    ensures Safe(cfg, timeout, Exec(cfg, timeout, m, actions))
    decreases |actions|
  {
    if actions != [] {
      StepIsSafe(cfg, timeout, m, actions[0]);
      RunIsSafe(cfg, timeout, Apply(cfg, timeout, m, actions[0]), actions[1..]);
    }
  }

  function Start(clock: int, lastSeen: int): Machine {
    Machine(clock, lastSeen, State(map[], map[]), [], map[], map[], Watching, [])
  }

  /**
   However requests, clock and watcher interleave, every task a lapse purge removes was last
   stored by a message recorded more than the timeout before the locked re-check, and every
   task whose removal is put down to a lapse is one of those.
   */
  lemma {:induction false} LapseRemovesOnlyStaleTasks(cfg: Config, timeout: int, clock: int, lastSeen: int,
      actions: seq<Action>)
    requires lastSeen <= clock && Run(cfg, timeout, Start(clock, lastSeen), actions)
    ensures var m := Exec(cfg, timeout, Start(clock, lastSeen), actions);
      && (forall i :: 0 <= i < |m.casualties| ==>
        m.casualties[i].storedAt + timeout < m.casualties[i].checkedAt <= m.clock)
      && Recounted(m)
  {
    RunIsSafe(cfg, timeout, Start(clock, lastSeen), actions);
    var m := Exec(cfg, timeout, Start(clock, lastSeen), actions);
    forall i | 0 <= i < |m.casualties|
      ensures m.casualties[i].storedAt + timeout < m.casualties[i].checkedAt <= m.clock
    {
      assert Stale(m.casualties[i], timeout, m.clock);
    }
  }

  /** With purges in the run too, endpoints never drift and the events add up to the store. */
  lemma {:induction false} TaskingHoldsThroughPurges(cfg: Config, timeout: int, clock: int, lastSeen: int,
      actions: seq<Action>)
    requires lastSeen <= clock && Run(cfg, timeout, Start(clock, lastSeen), actions)
    ensures var m := Exec(cfg, timeout, Start(clock, lastSeen), actions);
      && (forall xid :: xid in m.server.tasks ==> Agrees(m.server.provisioned, cfg.configured, m.server.tasks[xid]))
      && Fold(map[], m.events) == m.server.tasks && Follows(map[], m.events)
  {
    RunIsSafe(cfg, timeout, Start(clock, lastSeen), actions);
    var m := Exec(cfg, timeout, Start(clock, lastSeen), actions);
    forall xid | xid in m.server.tasks ensures Agrees(m.server.provisioned, cfg.configured, m.server.tasks[xid]) {
      assert TaskOk(cfg, m.server, xid);
    }
  }

  /** A task stored within the window stops a purge already decided on. */
  lemma {:induction false} RecentTaskStopsPurge(cfg: Config, timeout: int, m: Machine, xid: TaskId)
    requires Safe(cfg, timeout, m) && m.watcher.Decided?
    requires xid in m.server.tasks && m.storedAt[xid] + timeout >= m.clock
    ensures Apply(cfg, timeout, m, Recheck).watcher == Watching
    ensures Apply(cfg, timeout, m, Recheck).server == m.server
  {
    assert xid in m.storedAt.Keys;
  }

  // ------------------------------------------------- what stops a purge, and what does not

  predicate Refreshes(a: Action) {
    a.Record? || a.Seed?
  }

  function Ticked(clock: int, a: Action): int {
    if a.Tick? then clock + a.elapsed else clock
  }

  function ClockAfter(clock: int, actions: seq<Action>): int
    decreases |actions|
  {
    if actions == [] then clock else ClockAfter(Ticked(clock, actions[0]), actions[1..])
  }

  /** The time of the last activity recorded. */
  function SeenAfter(clock: int, seen: int, actions: seq<Action>): int
    decreases |actions|
  {
    if actions == [] then seen
    else SeenAfter(Ticked(clock, actions[0]), if Refreshes(actions[0]) then clock else seen, actions[1..])
  }

  ghost predicate RefreshedSince(clock: int, actions: seq<Action>, limit: int) {
    exists i :: 0 <= i < |actions| && Refreshes(actions[i]) && ClockAfter(clock, actions[..i]) >= limit
  }

  lemma {:induction false} RefreshedLater(clock: int, actions: seq<Action>, limit: int)
    requires actions != []
    ensures var next := Ticked(clock, actions[0]);
      RefreshedSince(clock, actions, limit) <==>
        (Refreshes(actions[0]) && clock >= limit) || RefreshedSince(next, actions[1..], limit)
  {
    var next, rest := Ticked(clock, actions[0]), actions[1..];
    if i :| 0 <= i < |actions| && Refreshes(actions[i]) && ClockAfter(clock, actions[..i]) >= limit {
      if i > 0 {
        assert actions[..i][1..] == rest[..i - 1];
        assert Refreshes(rest[i - 1]) && ClockAfter(next, rest[..i - 1]) >= limit;
      }
    }
    if Refreshes(actions[0]) && clock >= limit {
      assert ClockAfter(clock, actions[..0]) >= limit;
    }
    if i :| 0 <= i < |rest| && Refreshes(rest[i]) && ClockAfter(next, rest[..i]) >= limit {
      assert actions[..i + 1][1..] == rest[..i];
      assert Refreshes(actions[i + 1]) && ClockAfter(clock, actions[..i + 1]) >= limit;
    }
  }

  lemma {:induction false} SeenIsLatest(clock: int, seen: int, actions: seq<Action>, limit: int)
    requires seen <= clock
    ensures SeenAfter(clock, seen, actions) >= limit <==> seen >= limit || RefreshedSince(clock, actions, limit)
    decreases |actions|
  {
    if actions != [] {
      var next := Ticked(clock, actions[0]);
      SeenIsLatest(next, if Refreshes(actions[0]) then clock else seen, actions[1..], limit);
      RefreshedLater(clock, actions, limit);
    }
  }

  lemma {:induction false} ClockMovesOn(clock: int, actions: seq<Action>)
    ensures ClockAfter(clock, actions) >= clock
    decreases |actions|
  {
    if actions != [] {
      ClockMovesOn(Ticked(clock, actions[0]), actions[1..]);
    }
  }

  /** Until it re-checks, a watcher that has decided sees only the clock and the recorded activity move. */
  lemma {:induction false} WaitingToRecheck(cfg: Config, timeout: int, m: Machine, actions: seq<Action>)
    requires Run(cfg, timeout, m, actions) && m.watcher.Decided?
    requires forall i :: 0 <= i < |actions| ==> !actions[i].Recheck?
    ensures var e := Exec(cfg, timeout, m, actions);
      && Sound(e) && e.watcher.Decided?
      && e.clock == ClockAfter(m.clock, actions)
      && e.lastSeen == SeenAfter(m.clock, m.lastSeen, actions)
    decreases |actions|
  {
    if actions != [] {
      WaitingToRecheck(cfg, timeout, Apply(cfg, timeout, m, actions[0]), actions[1..]);
    }
  }

  /**
   A watcher that found the ADMF quiet abandons its purge at the locked re-check if and only
   if some message was authenticated and recorded, or the watch restarted, in between and
   within the timeout of the re-check. Messages that are refused, served, or only in flight,
   however many, make no difference.
   */
  lemma {:induction false} PurgeAbandonedExactlyWhen(cfg: Config, timeout: int, m: Machine, actions: seq<Action>)
    requires Sound(m) && m.watcher.Watching? && m.lastSeen <= m.clock && Lapsed(m, timeout)
    requires Run(cfg, timeout, Apply(cfg, timeout, m, Decide), actions)
    requires forall i :: 0 <= i < |actions| ==> !actions[i].Recheck?
    ensures var e := Exec(cfg, timeout, Apply(cfg, timeout, m, Decide), actions);
      && Sound(e) && e.watcher.Decided?
      && (Apply(cfg, timeout, e, Recheck).watcher.Watching? <==>
            exists i :: 0 <= i < |actions| && (actions[i].Record? || actions[i].Seed?)
              && e.clock - ClockAfter(m.clock, actions[..i]) <= timeout)
      && Apply(cfg, timeout, e, Recheck).watcher in {Watching, Locked(e.clock)}
  {
    var d := Apply(cfg, timeout, m, Decide);
    WaitingToRecheck(cfg, timeout, d, actions);
    var e := Exec(cfg, timeout, d, actions);
    ClockMovesOn(m.clock, actions);
    SeenIsLatest(m.clock, m.lastSeen, actions, e.clock - timeout);
  }

  /** With no activity recorded in between, the purge goes ahead and leaves no task. */
  lemma {:induction false} SilenceIsPurged(cfg: Config, timeout: int, m: Machine, actions: seq<Action>)
    requires Sound(m) && m.watcher.Watching? && m.lastSeen <= m.clock && Lapsed(m, timeout)
    requires Run(cfg, timeout, Apply(cfg, timeout, m, Decide), actions)
    requires forall i :: 0 <= i < |actions| ==> !actions[i].Recheck? && !actions[i].Record? && !actions[i].Seed?
    ensures var e := Exec(cfg, timeout, Apply(cfg, timeout, m, Decide), actions);
      && Sound(e) && e.watcher.Decided?
      && var locked := Apply(cfg, timeout, e, Recheck);
         && locked.watcher.Locked? && Sound(locked)
         && Apply(cfg, timeout, locked, PurgeNow).server.tasks == map[]
  {
    PurgeAbandonedExactlyWhen(cfg, timeout, m, actions);
  }

  // -------------------------------------------------------------------- who takes the lock

  /** Some state in which the message changes something. */
  ghost predicate CanChange(cfg: Config, m: Message) {
    exists s :: KeyedByXid(s) && Step(cfg, s, m).state != s
  }

  lemma {:induction false} WithdrawalCanChange(cfg: Config, xid: string)
    requires IsUuid(xid)
    ensures CanChange(cfg, DeactivateTask(xid))
  {
    var t := Task(xid, [], [], [], [], true, "", 0, Standard);
    var s := State(map[xid := t], map[]);
    assert KeyedByXid(s);
    assert xid in s.tasks && xid !in Step(cfg, s, DeactivateTask(xid)).state.tasks;
  }

  lemma {:induction false} BulkCanChange(cfg: Config)
    ensures !cfg.deactivateAllDisabled ==> CanChange(cfg, DeactivateAllTasks)
    ensures cfg.removeAllEnabled ==> CanChange(cfg, RemoveAllDestinations)
  {
    if !cfg.deactivateAllDisabled {
      var t := Task("x", [], [], [], [], true, "", 0, Standard);
      var s := State(map["x" := t], map[]);
      assert KeyedByXid(s) && "x" in s.tasks;
      assert Step(cfg, s, DeactivateAllTasks).state.tasks == map[];
      assert Step(cfg, s, DeactivateAllTasks).state != s;
    }
    if cfg.removeAllEnabled {
      var s := State(map[], map["d" := Destination("", X2Only, "", false)]);
      assert KeyedByXid(s) && "d" in s.provisioned && InUse(s) == {};
      assert Step(cfg, s, RemoveAllDestinations).state.provisioned == map[];
      assert Step(cfg, s, RemoveAllDestinations).state != s;
    }
  }

  lemma {:induction false} CreationCanChange(cfg: Config, d: Option<DestinationDetails>)
    requires DestinationWellFormed(d)
    ensures CanChange(cfg, CreateDestination(d))
  {
    var s := State(map[], map[]);
    assert KeyedByXid(s);
    assert d.value.did in Step(cfg, s, CreateDestination(d)).state.provisioned;
    assert Step(cfg, s, CreateDestination(d)).state != s;
  }

  /** Apart from activations and modifications, the messages that take the lock are those that can change anything. */
  lemma {:induction false} LockTakenExactlyWhen(cfg: Config, m: Message)
    ensures NeedsLock(cfg, m) <==> m.ActivateTask? || m.ModifyTask? || CanChange(cfg, m)
  {
    if !NeedsLock(cfg, m) {
      forall s | KeyedByXid(s) ensures Step(cfg, s, m).state == s {
        LockFreeStoresNothing(cfg, s, m);
      }
    } else {
      match m {
        case DeactivateTask(xid) => WithdrawalCanChange(cfg, xid);
        case DeactivateAllTasks => BulkCanChange(cfg);
        case RemoveAllDestinations => BulkCanChange(cfg);
        case CreateDestination(d) => CreationCanChange(cfg, d);
        case _ =>
      }
    }
  }

  /** A look at the clock decides on a purge exactly if the last activity is longer ago than the timeout. */
  lemma {:induction false} DecidesExactlyWhen(cfg: Config, timeout: int, m: Machine)
    requires Sound(m) && m.watcher.Watching?
    ensures Enabled(cfg, m, Decide)
    ensures var after := Apply(cfg, timeout, m, Decide);
      after == m.(watcher := if m.clock - m.lastSeen > timeout then Decided else Watching)
  {
  }

  /** A purge leaves no task, and each task held is told of as changed to nothing and as lapsed, in XID order. */
  lemma {:induction false} LapseTellsOfEach(cfg: Config, timeout: int, m: Machine)
    requires Sound(m) && m.watcher.Locked?
    ensures var after, out := Apply(cfg, timeout, m, PurgeNow), Listing(m.server.tasks);
      && after.server == m.server.(tasks := map[]) && after.watcher.Watching?
      && |after.events| == |m.events| + 2 * |out| && InPairs(after.events, |m.events|, out, KeepaliveLapse)
  {
    var out, told := Listing(m.server.tasks), Purge(m.server, KeepaliveLapse).events;
    RemovalsInPairs(out, KeepaliveLapse, told);
    PairsBehind(m.events, told, out);
  }

  lemma {:induction false} PairsBehind(before: seq<Event>, told: seq<Event>, out: seq<Task>)
    requires InPairs(told, 0, out, KeepaliveLapse)
    ensures InPairs(before + told, |before|, out, KeepaliveLapse)
  {
  }

  /** A request that passed authentication is recorded and then served, unless a purge holds the lock it needs. */
  lemma {:induction false} RequestIsServed(cfg: Config, timeout: int, m: Machine, id: nat, msg: Message)
    requires Sound(m) && id !in m.recorded && !(NeedsLock(cfg, msg) && m.watcher.Locked?)
    ensures Enabled(cfg, m, Record(id))
    ensures var between := Apply(cfg, timeout, m, Record(id));
      && between.lastSeen == m.clock && between.server == m.server
      && Enabled(cfg, between, Serve(id, msg))
      && var after, o := Apply(cfg, timeout, between, Serve(id, msg)), Step(cfg, m.server, msg);
         after.server == o.state && after.events == m.events + o.events && after.lastSeen == m.clock
           && id !in after.recorded
  {
  }
}
