/** The X1 server object, x1/x1.go, each operation proved against its step of Tasking. */
module TaskingServer {
  import opened Wrappers
  import opened Types
  import opened TaskStore
  import opened Tasking

  method ResolveDids(provisioned: Table, configured: Table, dids: seq<string>)
    returns (endpoints: seq<Endpoint>, unresolved: seq<string>)
    ensures Resolution(endpoints, unresolved) == Resolve(provisioned, configured, dids)
  {
    endpoints, unresolved := [], [];
    for k := 0 to |dids|
      invariant Resolution(endpoints, unresolved) == Resolve(provisioned, configured, dids[..k])
    {
      assert dids[..k + 1][..k] == dids[..k];
      var dest := Lookup(provisioned, configured, dids[k]);
      if dest.None? {
        unresolved := unresolved + [dids[k]];
        continue;
      }
      endpoints := endpoints + Endpoints(dest.value, dids[k]);
    }
    assert dids[..|dids|] == dids;
  }

  method MapEach(targets: seq<Target>) returns (mapped: Option<seq<TargetIdentifier>>)
    ensures mapped == MapTargets(targets)
  {
    var out: seq<TargetIdentifier> := [];
    for k := 0 to |targets|
      invariant MapTargets(targets[..k]) == Some(out)
    {
      assert targets[..k + 1][..k] == targets[..k];
      if targets[k].mapped.None? {
        UnmappableSpoilsAll(targets, k);
        return None;
      }
      out := out + targets[k].mapped.value;
    }
    assert targets[..|targets|] == targets;
    mapped := Some(out);
  }

  lemma {:induction false} UnmappableSpoilsAll(targets: seq<Target>, k: nat)
    requires k < |targets| && targets[k].mapped.None?
    ensures MapTargets(targets) == None
  {
    if k < |targets| - 1 {
      UnmappableSpoilsAll(targets[..|targets| - 1], k);
    }
  }

  /** The DIDs the held tasks name. */
  method ReferencedDids(snapshot: seq<Task>) returns (dids: set<string>)
    ensures forall d :: d in dids <==> exists t :: t in snapshot && d in t.dids
  {
    dids := {};
    for k := 0 to |snapshot|
      invariant forall d :: d in dids <==> exists t :: t in snapshot[..k] && d in t.dids
    {
      assert snapshot[..k + 1] == snapshot[..k] + [snapshot[k]];
      ghost var before := dids;
      for j := 0 to |snapshot[k].dids|
        invariant forall d :: d in dids <==> d in before || d in snapshot[k].dids[..j]
      {
        assert snapshot[k].dids[..j + 1] == snapshot[k].dids[..j] + [snapshot[k].dids[j]];
        dids := dids + {snapshot[k].dids[j]};
      }
      assert snapshot[k].dids[..|snapshot[k].dids|] == snapshot[k].dids;
    }
    assert snapshot[..|snapshot|] == snapshot;
  }

  lemma {:induction false} ListedReferences(snapshot: seq<Task>, tasks: map<TaskId, Task>, did: string)
    requires Lists(snapshot, tasks) && forall xid :: xid in tasks ==> tasks[xid].xid == xid
    ensures (exists t :: t in snapshot && did in t.dids) <==> Referenced(tasks, did)
  {
    if t :| t in snapshot && did in t.dids {
      assert t.xid in tasks && did in tasks[t.xid].dids;
    }
    if Referenced(tasks, did) {
      var xid :| xid in tasks && did in tasks[xid].dids;
      assert tasks[xid] in snapshot;
    }
  }

  method Notifications(snapshot: seq<Task>, reason: Reason) returns (events: seq<Event>)
    ensures events == Removals(snapshot, reason)
  {
    events := [];
    for k := 0 to |snapshot|
      invariant events == Removals(snapshot[..k], reason)
    {
      assert snapshot[..k + 1][..k] == snapshot[..k];
      events := events + [Changed(Some(snapshot[k]), None)] + [Purged(snapshot[k], reason)];
    }
    assert snapshot[..|snapshot|] == snapshot;
  }

  class Server {
    const store: Store
    const cfg: Config
    var destinations: Table
    var lastSeen: int
    var told: seq<Event>     // the task callbacks made, in order
    var alarms: seq<nat>     // the codes onAuthFailure was given, in order

    ghost predicate Valid()
      reads this, store
    {
      store.Valid()
    }

    ghost function Model(): State
      reads this, store
    {
      State(store.byXid, destinations)
    }

    constructor (cfg: Config)
      ensures Valid() && fresh(store) && this.cfg == cfg
      ensures Model() == State(map[], map[]) && told == [] && alarms == []
    {
      store := new Store();
      this.cfg := cfg;
      destinations, lastSeen, told, alarms := map[], 0, [], [];
    }

    method TaskFromDetails(td: TaskDetails) returns (r: Result<Task, Refusal>)
      ensures r == TaskFrom(cfg, Model(), td)
    {
      if td.xid == "" {
        return Failure(MissingXid);
      }
      if td.targets == [] {
        return Failure(NoTarget);
      }
      var targets := MapEach(td.targets);
      if targets.None? {
        return Failure(UnmappableTarget);
      }
      var products := Products(td.deliveryType);
      if products.None? {
        return Failure(UnknownDeliveryType);
      }
      var correlation := 0;
      if td.correlation != "" {
        var parsed := ParseUint64(td.correlation);
        if parsed.None? {
          return Failure(BadCorrelation);
        }
        correlation := parsed.value;
      }
      var deliveries, unresolved := ResolveDids(destinations, cfg.configured, td.dids);
      if unresolved != [] {
        return Failure(Unresolved(unresolved));
      }
      if cfg.requireDids && CC in products.value && !HasDelivery(deliveries, X3) {
        return Failure(NoX3Destination);
      }
      r := Success(Task(td.xid, targets.value, td.dids, products.value, deliveries, false, td.productId,
        correlation, Scope(td.extensions)));
    }

    /** Read what is held, replace it, and tell the point of interception, under one lock. */
    method ApplyTaskTransition(details: Option<TaskDetails>, isModify: bool, applicable: bool) returns (answer: Answer)
      requires Valid()
      modifies this`told, store
      ensures Valid()
      ensures var o := Transition(cfg, old(Model()), details, isModify, applicable);
        Model() == o.state && answer == o.answer && told == old(told) + o.events
    {
      if details.None? {
        return Refused(MissingDetails);
      }
      var td := details.value;
      var prev := store.Get(td.xid);
      if !IdentifiersWellFormed(td) {
        return Refused(Malformed);
      }
      if !Honourable(td, cfg.honoursCorrelation) {
        return Refused(Unhonourable);
      }
      if isModify && prev.None? {
        return Refused(NoSuchTask);
      }
      var built := TaskFromDetails(td);
      if built.Failure? {
        return Refused(built.error);
      }
      if !applicable {
        return Refused(Inapplicable);
      }
      var stored := store.Activate(built.value);
      var held := store.Get(td.xid);
      if prev != held {
        told := told + [Changed(prev, held)];
      }
      answer := Acknowledged;
    }

    method Deactivate(xid: string) returns (answer: Answer)
      requires Valid()
      modifies this`told, store
      ensures Valid()
      ensures var o := Withdraw(old(Model()), xid);
        Model() == o.state && answer == o.answer && told == old(told) + o.events
    {
      if xid == "" {
        return Refused(MissingXid);
      }
      if !IsUuid(xid) {
        return Refused(Malformed);
      }
      var task := store.Get(xid);
      if task.None? {
        return Refused(NoSuchTask);
      }
      var existed := store.Deactivate(xid);
      told := told + [Changed(Some(task.value), None), Purged(task.value, Withdrawal)];
      answer := Acknowledged;
    }

    /** The store is emptied before anybody is told. */
    method PurgeAllTasking(reason: Reason)
      requires Valid()
      modifies this`told, store
      ensures Valid()
      ensures KeyedByXid(old(Model()))
      ensures var o := Purge(old(Model()), reason); Model() == o.state && told == old(told) + o.events
    {
      var snapshot := store.Snapshot();
      store.DeactivateAll();
      var events := Notifications(snapshot, reason);
      told := told + events;
    }

    method DidReferenced(did: string) returns (yes: bool)
      requires Valid()
      ensures yes <==> Referenced(store.byXid, did)
    {
      var snapshot := store.Snapshot();
      ListedReferences(snapshot, store.byXid, did);
      var dids := ReferencedDids(snapshot);
      yes := did in dids;
    }

    method DestinationsInUse() returns (n: nat)
      requires Valid()
      ensures n == |InUse(Model())|
    {
      var snapshot := store.Snapshot();
      var dids := ReferencedDids(snapshot);
      var inUse := set did | did in destinations && did in dids;
      forall did ensures did in dids <==> Referenced(store.byXid, did) {
        ListedReferences(snapshot, store.byXid, did);
      }
      assert inUse == InUse(Model());
      n := |inUse|;
    }

    method RemoveAll() returns (answer: Answer)
      requires Valid()
      modifies this`destinations
      ensures Valid()
      ensures if InUse(old(Model())) != {} then answer == Refused(Refusal.DestinationsInUse) && Model() == old(Model())
              else answer == Acknowledged && Model() == old(Model()).(provisioned := map[])
    {
      var n := DestinationsInUse();
      if n > 0 {
        return Refused(Refusal.DestinationsInUse);
      }
      destinations := map[];
      answer := Acknowledged;
    }

    method Create(destination: Option<DestinationDetails>) returns (answer: Answer)
      requires Valid()
      modifies this`destinations
      ensures Valid()
      ensures var o := Provision(cfg, old(Model()), destination);
        Model() == o.state && answer == o.answer && o.events == []
    {
      if destination.None? {
        return Refused(MissingDetails);
      }
      var d := destination.value;
      if d.did == "" {
        return Refused(MissingDid);
      }
      if !IsUuid(d.did) {
        return Refused(Malformed);
      }
      if Products(d.deliveryType).None? {
        return Refused(UnknownDeliveryType);
      }
      if !ExtensionsHonourable(d.extensions) {
        return Refused(Unhonourable);
      }
      if d.address.None? {
        return Refused(BadAddress);
      }
      var referenced := DidReferenced(d.did);
      if d.did in destinations {
        return Refused(AlreadyPresent);
      }
      if d.did in cfg.configured && referenced {
        return Refused(ConfiguredAndInUse);
      }
      destinations := destinations[d.did := Destination(d.address.value, d.deliveryType, d.friendlyName, false)];
      answer := Acknowledged;
    }

    /** One authenticated message: its step, its answer and the callbacks it makes. */
    method Apply(m: Message) returns (answer: Answer)
      requires Valid()
      modifies this`destinations, this`told, store
      ensures Valid() && KeyedByXid(old(Model()))
      ensures var o := Step(cfg, old(Model()), m);
        Model() == o.state && answer == o.answer && told == old(told) + o.events
    {
      match m
      case ActivateTask(details, applicable) => answer := ApplyTaskTransition(details, false, applicable);
      case ModifyTask(details, applicable) => answer := ApplyTaskTransition(details, true, applicable);
      case DeactivateTask(xid) => answer := Deactivate(xid);
      case DeactivateAllTasks =>
        if cfg.deactivateAllDisabled {
          return Refused(NotEnabled);
        }
        PurgeAllTasking(BulkDeactivate);
        answer := Acknowledged;
      case RemoveAllDestinations =>
        if !cfg.removeAllEnabled {
          return Refused(NotEnabled);
        }
        answer := RemoveAll();
      case CreateDestination(destination) => answer := Create(destination);
      case GetTask(xid) =>
        var task := store.Get(xid);
        answer := if task.Some? then Acknowledged else Refused(if xid == "" then MissingXid else NoSuchTask);
      case GetDestination(did) =>
        if did == "" {
          return Refused(MissingDid);
        }
        answer := if Lookup(destinations, cfg.configured, did).Some? then Acknowledged else Refused(NoSuchDestination);
      case Query => answer := Acknowledged;
      case Unsupported => answer := Refused(UnsupportedRequest);
    }

    /**
     Activity is recorded before the message is applied, and only if it authenticated: code is
     what authentication answered, zero for a pass. A failure is told and changes nothing else.
     */
    method ApplyAuthenticated(m: Message, code: nat, now: int) returns (answer: Option<Answer>)
      requires Valid()
      modifies this, store
      ensures Valid() && KeyedByXid(old(Model()))
      ensures alarms == old(alarms) + if code == 0 then [] else [code]
      ensures code != 0 ==>
        answer == None && Model() == old(Model()) && told == old(told) && lastSeen == old(lastSeen)
      ensures code == 0 ==>
        var o := Step(cfg, old(Model()), m);
        answer == Some(o.answer) && Model() == o.state && told == old(told) + o.events && lastSeen == now
    {
      if code != 0 {
        alarms := alarms + [code];
        return None;
      }
      lastSeen := now;
      var a := Apply(m);
      answer := Some(a);
    }

    /** One tick of the watcher that meets no other step: first look, then the locked re-check. */
    method PurgeIfLapsed(timeout: int, first: int, second: int)
      requires Valid() && first <= second
      modifies this`told, store
      ensures Valid() && KeyedByXid(old(Model()))
      ensures var o := Purge(old(Model()), KeepaliveLapse);
        if first - lastSeen > timeout then Model() == o.state && told == old(told) + o.events
        else Model() == old(Model()) && told == old(told)
    {
      if !(first - lastSeen > timeout) {
        return;
      }
      if !(second - lastSeen > timeout) {
        return;
      }
      PurgeAllTasking(KeepaliveLapse);
    }
  }
}
