/**
 The destination watcher, x1/faultwatch.go: joining the tasks' destinations with their
 reachability, and reporting both edges of it through the reporter.
 */
module FaultWatch {
  import opened Wrappers
  import opened Types
  import opened Tasking
  import opened TaskingProperties
  import FR = FaultReporter

  datatype Health = Health(did: string, address: string, down: bool)

  // ------------------------------------------------------------------------- the survey

  /** Some identifier was provisioned onto this address. */
  ghost predicate Named(t: Task, kind: Interface, address: string) {
    exists d :: d != "" && Endpoint(kind, address, d) in t.deliveries
  }

  /** What one task asks to be watched: its identifiers for an address, or the empty one. */
  ghost predicate Asks(t: Task, kind: Interface, addresses: seq<string>, did: string, address: string) {
    && address in addresses
    && (if Named(t, kind, address) then did != "" && Endpoint(kind, address, did) in t.deliveries else did == "")
  }

  ghost predicate AnyAsks(tasks: seq<Task>, kind: Interface, addressesOf: Task -> seq<string>, did: string,
      address: string) {
    exists t :: t in tasks && Asks(t, kind, addressesOf(t), did, address)
  }

  ghost predicate Tidy(out: seq<Health>, unreachable: string -> bool) {
    && (forall i :: 0 <= i < |out| ==> out[i].down == unreachable(out[i].address))
    && (forall i, j :: 0 <= i < j < |out| ==> !(out[i].did == out[j].did && out[i].address == out[j].address))
  }

  /** Each (identifier, address) some task asks for, once, with its reachability, and no other. */
  ghost predicate Surveys(
    out: seq<Health>, tasks: seq<Task>, kind: Interface, addressesOf: Task -> seq<string>, unreachable: string -> bool)
  {
    && Tidy(out, unreachable)
    && forall did, address :: Health(did, address, unreachable(address)) in out
         <==> AnyAsks(tasks, kind, addressesOf, did, address)
  }

  /** What is listed earlier was asked for by a task no later. */
  ghost predicate InTaskOrder(out: seq<Health>, tasks: seq<Task>, kind: Interface, addressesOf: Task -> seq<string>) {
    forall i, j, m :: 0 <= i < j < |out| && 0 <= m < |tasks| && AsksFor(tasks[m], kind, addressesOf, out[j]) ==>
      AskedWithin(tasks[..m + 1], kind, addressesOf, out[i])
  }

  ghost predicate AsksFor(t: Task, kind: Interface, addressesOf: Task -> seq<string>, h: Health) {
    Asks(t, kind, addressesOf(t), h.did, h.address)
  }

  ghost predicate AskedWithin(tasks: seq<Task>, kind: Interface, addressesOf: Task -> seq<string>, h: Health) {
    AnyAsks(tasks, kind, addressesOf, h.did, h.address)
  }

  method AddEach(before: seq<Health>, dids: seq<string>, address: string, unreachable: string -> bool)
    returns (out: seq<Health>)
    requires Tidy(before, unreachable)
    ensures Tidy(out, unreachable) && before <= out
    ensures forall h :: h in out <==>
      h in before || (h.did in dids && h == Health(h.did, address, unreachable(address)))
  {
    out := before;
    for k := 0 to |dids|
      invariant Tidy(out, unreachable) && before <= out
      invariant forall h ::
        h in out <==> h in before || (h.did in dids[..k] && h == Health(h.did, address, unreachable(address)))
    {
      assert dids[..k + 1] == dids[..k] + [dids[k]];
      if exists i :: 0 <= i < |out| && out[i].did == dids[k] && out[i].address == address {
        var i :| 0 <= i < |out| && out[i].did == dids[k] && out[i].address == address;
        assert out[i] == Health(dids[k], address, unreachable(address));
        continue;
      }
      out := out + [Health(dids[k], address, unreachable(address))];
    }
    assert dids[..|dids|] == dids;
  }

  method AddTask(before: seq<Health>, t: Task, kind: Interface, addresses: seq<string>, unreachable: string -> bool)
    returns (out: seq<Health>)
    requires Tidy(before, unreachable)
    ensures Tidy(out, unreachable) && before <= out
    ensures forall h :: h in out <==>
      h in before || (Asks(t, kind, addresses, h.did, h.address) && h.down == unreachable(h.address))
  {
    out := before;
    for k := 0 to |addresses|
      invariant Tidy(out, unreachable) && before <= out
      invariant forall h :: h in out <==>
        h in before || (Asks(t, kind, addresses[..k], h.did, h.address) && h.down == unreachable(h.address))
    {
      var address := addresses[k];
      var dids := DeliveryDids(t, kind, address);
      if |dids| == 0 {
        dids := [""];
      } else {
        assert dids[0] in dids;
      }
      ghost var sofar := out;
      out := AddEach(out, dids, address, unreachable);
      assert addresses[..k + 1] == addresses[..k] + [address];
      assert forall d :: d in dids <==> Asks(t, kind, [address], d, address);
    }
    assert addresses[..|addresses|] == addresses;
  }

  method DestinationHealthOf(tasks: seq<Task>, kind: Interface, addressesOf: Task -> seq<string>,
      unreachable: string -> bool)
    returns (out: seq<Health>)
    ensures Surveys(out, tasks, kind, addressesOf, unreachable)
    ensures InTaskOrder(out, tasks, kind, addressesOf)
  {
    out := [];
    for k := 0 to |tasks|
      invariant Surveys(out, tasks[..k], kind, addressesOf, unreachable)
      invariant InTaskOrder(out, tasks[..k], kind, addressesOf)
    {
      ghost var before := out;
      out := AddTask(out, tasks[k], kind, addressesOf(tasks[k]), unreachable);
      assert tasks[..k + 1] == tasks[..k] + [tasks[k]];
      forall did, address
        ensures Health(did, address, unreachable(address)) in out
          <==> AnyAsks(tasks[..k + 1], kind, addressesOf, did, address)
      {
        AsksOneMore(tasks[..k], tasks[k], kind, addressesOf, did, address);
      }
      OrderKept(before, out, tasks[..k], tasks[k], kind, addressesOf, unreachable);
    }
    assert tasks[..|tasks|] == tasks;
  }

  lemma {:induction false} AsksOneMore(front: seq<Task>, t: Task, kind: Interface, addressesOf: Task -> seq<string>,
      did: string, address: string)
    ensures AnyAsks(front + [t], kind, addressesOf, did, address) <==>
      AnyAsks(front, kind, addressesOf, did, address) || Asks(t, kind, addressesOf(t), did, address)
  {
    assert t in front + [t];
    if AnyAsks(front, kind, addressesOf, did, address) {
      var u :| u in front && Asks(u, kind, addressesOf(u), did, address);
      assert u in front + [t];
    }
  }

  /** A delivery of the task's goes to the address under an identifier of its own. */
  ghost predicate Identified(t: Task, kind: Interface, address: string, did: string) {
    did != "" && Endpoint(kind, address, did) in t.deliveries
  }

  /**
   What a survey lists: an identifier at an address exactly if some task that uses the address
   delivers there under it, and the empty identifier exactly if some task uses the address with
   no identifier at all.
   */
  lemma {:induction false} SurveyedExactlyWhen(
    out: seq<Health>, tasks: seq<Task>, kind: Interface, addressesOf: Task -> seq<string>,
    unreachable: string -> bool, did: string, address: string)
    requires Surveys(out, tasks, kind, addressesOf, unreachable)
    ensures did != "" ==>
      (Health(did, address, unreachable(address)) in out <==>
         exists t :: t in tasks && address in addressesOf(t) && Identified(t, kind, address, did))
    ensures Health("", address, unreachable(address)) in out <==>
      exists t :: t in tasks && address in addressesOf(t) && forall d :: !Identified(t, kind, address, d)
    ensures Health(did, address, !unreachable(address)) !in out
  {
    if did != "" {
      if t :| t in tasks && address in addressesOf(t) && Identified(t, kind, address, did) {
        assert Asks(t, kind, addressesOf(t), did, address);
      }
      if t :| t in tasks && Asks(t, kind, addressesOf(t), did, address) {
        assert Identified(t, kind, address, did);
      }
    }
    if t :| t in tasks && address in addressesOf(t) && forall d :: !Identified(t, kind, address, d) {
      assert !Named(t, kind, address) by {
        if d :| d != "" && Endpoint(kind, address, d) in t.deliveries {
          assert Identified(t, kind, address, d);
        }
      }
      assert Asks(t, kind, addressesOf(t), "", address);
    }
    if t :| t in tasks && Asks(t, kind, addressesOf(t), "", address) {
      assert forall d :: !Identified(t, kind, address, d);
    }
  }

  /** Entries a further task adds come behind those already listed. */
  lemma {:induction false} OrderKept(
    before: seq<Health>, out: seq<Health>, front: seq<Task>, t: Task, kind: Interface,
    addressesOf: Task -> seq<string>, unreachable: string -> bool)
    requires before <= out && InTaskOrder(before, front, kind, addressesOf)
    requires Surveys(before, front, kind, addressesOf, unreachable)
    requires Surveys(out, front + [t], kind, addressesOf, unreachable)
    ensures InTaskOrder(out, front + [t], kind, addressesOf)
  {
    var tasks := front + [t];
    forall i, j, m | 0 <= i < j < |out| && 0 <= m < |tasks| && AsksFor(tasks[m], kind, addressesOf, out[j])
      ensures AskedWithin(tasks[..m + 1], kind, addressesOf, out[i])
    {
      if m < |front| {
        assert tasks[..m + 1] == front[..m + 1];
        ListedAlready(before, out, front, t, kind, addressesOf, unreachable, j, m);
        assert before[i] == out[i] && before[j] == out[j];
      } else {
        assert tasks[..m + 1] == tasks;
        assert out[i] == Health(out[i].did, out[i].address, unreachable(out[i].address));
      }
    }
  }

  /** An entry some earlier task asks for is among those listed before. */
  lemma {:induction false} ListedAlready(
    before: seq<Health>, out: seq<Health>, front: seq<Task>, t: Task, kind: Interface,
    addressesOf: Task -> seq<string>, unreachable: string -> bool, j: nat, m: nat)
    requires before <= out && Surveys(before, front, kind, addressesOf, unreachable) && Tidy(out, unreachable)
    requires j < |out| && m < |front| && AsksFor(front[m], kind, addressesOf, out[j])
    ensures j < |before|
  {
    var h := out[j];
    assert h == Health(h.did, h.address, unreachable(h.address));
    assert front[m] in front && AnyAsks(front, kind, addressesOf, h.did, h.address);
    var k :| 0 <= k < |before| && before[k] == h;
    assert out[k] == h;
  }

  // ---------------------------------------------- each identifier has one address

  /** Every task's endpoints are what the tables say, as every reachable server state has it. */
  ghost predicate Consistent(provisioned: Table, configured: Table, tasks: seq<Task>) {
    forall i :: 0 <= i < |tasks| ==> Agrees(provisioned, configured, tasks[i])
  }

  ghost predicate UniqueDids(out: seq<Health>) {
    forall i, j :: 0 <= i < j < |out| && out[i].did != "" ==> out[i].did != out[j].did
  }

  /** The tasks of any reachable server state are consistent. */
  lemma {:induction false} HeldTasksAreConsistent(cfg: Config, messages: seq<Message>, tasks: seq<Task>)
    requires var s := Exec(cfg, Empty, messages).state;
      forall i :: 0 <= i < |tasks| ==> tasks[i].xid in s.tasks && s.tasks[tasks[i].xid] == tasks[i]
    ensures Consistent(Exec(cfg, Empty, messages).state.provisioned, cfg.configured, tasks)
  {
    EndpointsNeverDrift(cfg, messages);
  }

  lemma {:induction false} AskedAddress(p: Table, c: Table, tasks: seq<Task>, kind: Interface,
      addressesOf: Task -> seq<string>, did: string, address: string)
    requires Consistent(p, c, tasks) && did != "" && AnyAsks(tasks, kind, addressesOf, did, address)
    ensures Lookup(p, c, did).Some? && Lookup(p, c, did).value.address == address
  {
    var t :| t in tasks && Asks(t, kind, addressesOf(t), did, address);
    var i :| 0 <= i < |tasks| && tasks[i] == t;
    assert Agrees(p, c, tasks[i]);
    ResolvedEndpointNamesItsDid(p, c, t.dids, Endpoint(kind, address, did));
  }

  /** A survey of consistent tasks lists each identifier at most once. */
  lemma {:induction false} SurveyListsEachDidOnce(
    p: Table, c: Table, out: seq<Health>, tasks: seq<Task>, kind: Interface,
    addressesOf: Task -> seq<string>, unreachable: string -> bool)
    requires Consistent(p, c, tasks) && Surveys(out, tasks, kind, addressesOf, unreachable)
    ensures UniqueDids(out)
  {
    forall i, j | 0 <= i < j < |out| && out[i].did != "" ensures out[i].did != out[j].did {
      if out[i].did == out[j].did {
        assert out[i] == Health(out[i].did, out[i].address, unreachable(out[i].address));
        assert out[j] == Health(out[j].did, out[j].address, unreachable(out[j].address));
        AskedAddress(p, c, tasks, kind, addressesOf, out[i].did, out[i].address);
        AskedAddress(p, c, tasks, kind, addressesOf, out[j].did, out[j].address);
      }
    }
  }

  // -------------------------------------------------------------------------- sampling

  const CONDITION := "mdfUnreachable"

  function DestinationKey(did: string): FR.Key {
    FR.Key(FR.DestinationScope, did, CONDITION)
  }

  const ELEMENT_KEY := FR.Key(FR.Element, "", CONDITION)

  datatype Call = Call(key: FR.Key, retraction: bool)

  function DestinationCalls(health: seq<Health>): seq<Call> {
    if health == [] then []
    else
      var front, h := DestinationCalls(health[..|health| - 1]), health[|health| - 1];
      if h.did == "" then front else front + [Call(DestinationKey(h.did), !h.down)]
  }

  predicate AnyUnnamed(health: seq<Health>) {
    exists i :: 0 <= i < |health| && health[i].did == ""
  }

  predicate AnyUnnamedDown(health: seq<Health>) {
    exists i :: 0 <= i < |health| && health[i].did == "" && health[i].down
  }

  /** The calls a sample makes of the reporter, in order. */
  function Calls(health: seq<Health>): seq<Call> {
    DestinationCalls(health) +
    if AnyUnnamed(health) then [Call(ELEMENT_KEY, !AnyUnnamedDown(health))] else []
  }

  function Make(s: FR.Records, c: Call, delivered: FR.Key -> bool, now: int): FR.Records {
    FR.Notified(s, c.key, c.retraction, delivered(c.key), now, now)
  }

  function MakeAll(s: FR.Records, calls: seq<Call>, delivered: FR.Key -> bool, now: int): FR.Records {
    if calls == [] then s
    else Make(MakeAll(s, calls[..|calls| - 1], delivered, now), calls[|calls| - 1], delivered, now)
  }

  method MakeCall(r: FR.Reporter, c: Call, delivered: FR.Key -> bool, now: int)
    modifies r
    ensures r.State() == Make(old(r.State()), c, delivered, now)
  {
    if c.retraction {
      var _ := r.NotifyClear(c.key, delivered(c.key));
    } else {
      var _ := r.NotifyFault(c.key, delivered(c.key), now, now);
    }
  }

  lemma {:induction false} MakeOneMore(s: FR.Records, calls: seq<Call>, c: Call, delivered: FR.Key -> bool, now: int)
    ensures MakeAll(s, calls + [c], delivered, now) == Make(MakeAll(s, calls, delivered, now), c, delivered, now)
  {
    assert (calls + [c])[..|calls|] == calls;
  }

  /** One sample: both edges of every identified destination, then the aggregate of the rest. */
  method Sample(r: FR.Reporter, health: seq<Health>, delivered: FR.Key -> bool, now: int)
    modifies r
    ensures r.State() == MakeAll(old(r.State()), Calls(health), delivered, now)
  {
    var unnamed, unnamedDown := false, false;
    for k := 0 to |health|
      invariant unnamed == AnyUnnamed(health[..k]) && unnamedDown == AnyUnnamedDown(health[..k])
      invariant r.State() == MakeAll(old(r.State()), DestinationCalls(health[..k]), delivered, now)
    {
      var h := health[k];
      assert health[..k + 1] == health[..k] + [h];
      assert health[..k + 1][..k] == health[..k];
      FlagsOneMore(health[..k], h);
      if h.did == "" {
        unnamed := true;
        unnamedDown := unnamedDown || h.down;
        continue;
      }
      MakeOneMore(old(r.State()), DestinationCalls(health[..k]), Call(DestinationKey(h.did), !h.down), delivered, now);
      MakeCall(r, Call(DestinationKey(h.did), !h.down), delivered, now);
    }
    assert health[..|health|] == health;
    if !unnamed {
      assert Calls(health) == DestinationCalls(health);
      return;
    }
    MakeOneMore(old(r.State()), DestinationCalls(health), Call(ELEMENT_KEY, !unnamedDown), delivered, now);
    MakeCall(r, Call(ELEMENT_KEY, !unnamedDown), delivered, now);
  }

  lemma {:induction false} FlagsOneMore(front: seq<Health>, h: Health)
    ensures AnyUnnamed(front + [h]) <==> AnyUnnamed(front) || h.did == ""
    ensures AnyUnnamedDown(front + [h]) <==> AnyUnnamedDown(front) || (h.did == "" && h.down)
  {
    var all := front + [h];
    assert all[|front|] == h;
    if AnyUnnamed(front) {
      var i :| 0 <= i < |front| && front[i].did == "";
      assert all[i] == front[i];
    }
    if AnyUnnamedDown(front) {
      var i :| 0 <= i < |front| && front[i].did == "" && front[i].down;
      assert all[i] == front[i];
    }
  }

  // -------------------------------------------------------------- order does not matter

  /** What the reporter holds about one key. */
  datatype KeyState = KeyState(sent: Option<int>, sending: bool, reported: bool)

  function At(s: FR.Records, k: FR.Key): KeyState {
    KeyState(if k in s.lastSent then Some(s.lastSent[k]) else None, k in s.sending, k in s.reported)
  }

  function Effect(ks: KeyState, retraction: bool, delivered: bool, now: int): KeyState {
    if ks.sending || !delivered then ks
    else if retraction then (if ks.reported then KeyState(None, false, false) else ks)
    else if ks.sent.Some? && now - ks.sent.value < FR.THROTTLE then ks
    else KeyState(Some(now), false, true)
  }

  lemma {:induction false} MakeIsLocal(s: FR.Records, c: Call, delivered: FR.Key -> bool, now: int, k: FR.Key)
    ensures At(Make(s, c, delivered, now), k) ==
      if k == c.key then Effect(At(s, k), c.retraction, delivered(k), now) else At(s, k)
  {
  }

  lemma {:induction false} SameEverywhere(s: FR.Records, t: FR.Records)
    requires forall k :: At(s, k) == At(t, k)
    ensures s == t
  {
    forall k ensures k in s.lastSent <==> k in t.lastSent { assert At(s, k) == At(t, k); }
    forall k | k in s.lastSent ensures s.lastSent[k] == t.lastSent[k] { assert At(s, k) == At(t, k); }
    forall k ensures k in s.sending <==> k in t.sending { assert At(s, k) == At(t, k); }
    forall k ensures k in s.reported <==> k in t.reported { assert At(s, k) == At(t, k); }
  }

  ghost predicate DistinctKeys(calls: seq<Call>) {
    forall i, j :: 0 <= i < j < |calls| ==> calls[i].key != calls[j].key
  }

  ghost predicate SameCalls(a: seq<Call>, b: seq<Call>) {
    forall c :: c in a <==> c in b
  }

  lemma {:induction false} UntouchedKey(s: FR.Records, calls: seq<Call>, delivered: FR.Key -> bool, now: int, k: FR.Key)
    requires forall i :: 0 <= i < |calls| ==> calls[i].key != k
    ensures At(MakeAll(s, calls, delivered, now), k) == At(s, k)
  {
    if calls != [] {
      var n := |calls| - 1;
      UntouchedKey(s, calls[..n], delivered, now, k);
      MakeIsLocal(MakeAll(s, calls[..n], delivered, now), calls[n], delivered, now, k);
    }
  }

  lemma {:induction false} TouchedKey(s: FR.Records, calls: seq<Call>, delivered: FR.Key -> bool, now: int, c: Call)
    requires DistinctKeys(calls) && c in calls
    ensures At(MakeAll(s, calls, delivered, now), c.key) == Effect(At(s, c.key), c.retraction, delivered(c.key), now)
  {
    var n := |calls| - 1;
    var before := MakeAll(s, calls[..n], delivered, now);
    MakeIsLocal(before, calls[n], delivered, now, c.key);
    if c == calls[n] {
      UntouchedKey(s, calls[..n], delivered, now, c.key);
    } else {
      TouchedKey(s, calls[..n], delivered, now, c);
    }
  }

  lemma {:induction false} CallsCommute(s: FR.Records, a: seq<Call>, b: seq<Call>, delivered: FR.Key -> bool, now: int)
    requires DistinctKeys(a) && DistinctKeys(b) && SameCalls(a, b)
    ensures MakeAll(s, a, delivered, now) == MakeAll(s, b, delivered, now)
  {
    forall k ensures At(MakeAll(s, a, delivered, now), k) == At(MakeAll(s, b, delivered, now), k) {
      if i :| 0 <= i < |a| && a[i].key == k {
        assert a[i] in b;
        TouchedKey(s, a, delivered, now, a[i]);
        TouchedKey(s, b, delivered, now, a[i]);
      } else {
        forall j | 0 <= j < |b| ensures b[j].key != k {
          assert b[j] in a;
        }
        UntouchedKey(s, a, delivered, now, k);
        UntouchedKey(s, b, delivered, now, k);
      }
    }
    SameEverywhere(MakeAll(s, a, delivered, now), MakeAll(s, b, delivered, now));
  }

  /** The calls about identified destinations are one per listed identifier. */
  lemma {:induction false} DestinationCallsAre(health: seq<Health>, c: Call)
    ensures c in DestinationCalls(health) <==>
      exists i :: 0 <= i < |health| && health[i].did != "" && c == Call(DestinationKey(health[i].did), !health[i].down)
  {
    if health != [] {
      var n := |health| - 1;
      DestinationCallsAre(health[..n], c);
      if i :| 0 <= i < n && health[i].did != "" && c == Call(DestinationKey(health[i].did), !health[i].down) {
        assert health[..n][i] == health[i];
      }
    }
  }

  lemma {:induction false} DestinationCallsDistinct(health: seq<Health>)
    requires UniqueDids(health)
    ensures DistinctKeys(DestinationCalls(health))
  {
    if health != [] {
      var n := |health| - 1;
      DestinationCallsDistinct(health[..n]);
      forall i | 0 <= i < |DestinationCalls(health[..n])| && health[n].did != ""
        ensures DestinationCalls(health[..n])[i].key != DestinationKey(health[n].did)
      {
        DestinationCallsAre(health[..n], DestinationCalls(health[..n])[i]);
      }
    }
  }

  lemma {:induction false} CallsDistinct(health: seq<Health>)
    requires UniqueDids(health)
    ensures DistinctKeys(Calls(health))
  {
    DestinationCallsDistinct(health);
    forall i | 0 <= i < |DestinationCalls(health)| ensures DestinationCalls(health)[i].key != ELEMENT_KEY {
      DestinationCallsAre(health, DestinationCalls(health)[i]);
    }
  }

  ghost predicate SameHealth(a: seq<Health>, b: seq<Health>) {
    forall h :: h in a <==> h in b
  }

  lemma {:induction false} SameHealthSameCalls(a: seq<Health>, b: seq<Health>)
    requires SameHealth(a, b)
    ensures SameCalls(Calls(a), Calls(b))
  {
    HealthImpliesCalls(a, b);
    HealthImpliesCalls(b, a);
    forall c ensures c in DestinationCalls(a) <==> c in DestinationCalls(b) {
      DestinationCallsOf(a, b, c);
      DestinationCallsOf(b, a, c);
    }
  }

  lemma {:induction false} HealthImpliesCalls(a: seq<Health>, b: seq<Health>)
    requires SameHealth(a, b)
    ensures AnyUnnamed(a) ==> AnyUnnamed(b)
    ensures AnyUnnamedDown(a) ==> AnyUnnamedDown(b)
  {
    if i :| 0 <= i < |a| && a[i].did == "" {
      assert a[i] in b;
    }
    if i :| 0 <= i < |a| && a[i].did == "" && a[i].down {
      assert a[i] in b;
    }
  }

  lemma {:induction false} DestinationCallsOf(a: seq<Health>, b: seq<Health>, c: Call)
    requires SameHealth(a, b)
    ensures c in DestinationCalls(a) ==> c in DestinationCalls(b)
  {
    DestinationCallsAre(a, c);
    DestinationCallsAre(b, c);
    if i :| 0 <= i < |a| && a[i].did != "" && c == Call(DestinationKey(a[i].did), !a[i].down) {
      assert a[i] in b;
      var j :| 0 <= j < |b| && b[j] == a[i];
    }
  }

  /** Surveys of the same tasks in any order hold the same entries. */
  lemma {:induction false} SurveysAgree(
    a: seq<Health>, b: seq<Health>, tasks: seq<Task>, others: seq<Task>, kind: Interface,
    addressesOf: Task -> seq<string>, unreachable: string -> bool)
    requires forall t :: t in tasks <==> t in others
    requires Surveys(a, tasks, kind, addressesOf, unreachable) && Surveys(b, others, kind, addressesOf, unreachable)
    ensures SameHealth(a, b)
  {
    forall h | h in a ensures h in b {
      assert h == Health(h.did, h.address, unreachable(h.address));
      assert AnyAsks(tasks, kind, addressesOf, h.did, h.address);
      assert AnyAsks(others, kind, addressesOf, h.did, h.address);
    }
    forall h | h in b ensures h in a {
      assert h == Health(h.did, h.address, unreachable(h.address));
      assert AnyAsks(others, kind, addressesOf, h.did, h.address);
      assert AnyAsks(tasks, kind, addressesOf, h.did, h.address);
    }
  }

  /**
   With one clock reading and one outcome per key, a sample of consistent tasks leaves the
   reporter the same whatever order the tasks come in.
   */
  lemma {:induction false} SampleIgnoresTaskOrder(
    p: Table, c: Table, s: FR.Records, a: seq<Health>, b: seq<Health>, tasks: seq<Task>, others: seq<Task>,
    kind: Interface, addressesOf: Task -> seq<string>, unreachable: string -> bool, delivered: FR.Key -> bool, now: int)
    requires forall t :: t in tasks <==> t in others
    requires Consistent(p, c, tasks) && Consistent(p, c, others)
    requires Surveys(a, tasks, kind, addressesOf, unreachable) && Surveys(b, others, kind, addressesOf, unreachable)
    ensures MakeAll(s, Calls(a), delivered, now) == MakeAll(s, Calls(b), delivered, now)
  {
    SurveyListsEachDidOnce(p, c, a, tasks, kind, addressesOf, unreachable);
    SurveyListsEachDidOnce(p, c, b, others, kind, addressesOf, unreachable);
    SurveysAgree(a, b, tasks, others, kind, addressesOf, unreachable);
    CallsDistinct(a);
    CallsDistinct(b);
    SameHealthSameCalls(a, b);
    CallsCommute(s, Calls(a), Calls(b), delivered, now);
  }

  /** Two tasks that put one identifier at two addresses, the first reachable and the second not. */
  ghost predicate Split(t: Task, u: Task, kind: Interface, addressesOf: Task -> seq<string>,
      unreachable: string -> bool, did: string, up: string, down: string) {
    && did != "" && !unreachable(up) && unreachable(down)
    && t.deliveries == [Endpoint(kind, up, did)] && addressesOf(t) == [up]
    && u.deliveries == [Endpoint(kind, down, did)] && addressesOf(u) == [down]
  }

  lemma {:induction false} OneDeliveryAsks(t: Task, kind: Interface, address: string, did: string, h: Health)
    requires did != "" && t.deliveries == [Endpoint(kind, address, did)]
    ensures Asks(t, kind, [address], h.did, h.address) <==> h.did == did && h.address == address
  {
    assert Endpoint(kind, address, did) in t.deliveries;
  }

  /** A survey of two tasks with one delivery each lists theirs, the first task's first. */
  lemma {:induction false} TwoTaskSurvey(
    out: seq<Health>, t: Task, u: Task, kind: Interface, addressesOf: Task -> seq<string>,
    unreachable: string -> bool, did: string, first: string, second: string)
    requires Surveys(out, [t, u], kind, addressesOf, unreachable) && InTaskOrder(out, [t, u], kind, addressesOf)
    requires did != "" && first != second
    requires t.deliveries == [Endpoint(kind, first, did)] && addressesOf(t) == [first]
    requires u.deliveries == [Endpoint(kind, second, did)] && addressesOf(u) == [second]
    ensures out == [Health(did, first, unreachable(first)), Health(did, second, unreachable(second))]
  {
    var a, b := Health(did, first, unreachable(first)), Health(did, second, unreachable(second));
    forall h: Health ensures AskedWithin([t, u], kind, addressesOf, h) <==>
      h.did == did && (h.address == first || h.address == second) {
      OneDeliveryAsks(t, kind, first, did, h);
      OneDeliveryAsks(u, kind, second, did, h);
      assert t in [t, u] && u in [t, u];
    }
    assert AskedWithin([t, u], kind, addressesOf, a) && AskedWithin([t, u], kind, addressesOf, b);
    assert a in out && b in out;
    forall h | h in out ensures h == a || h == b {
      assert h == Health(h.did, h.address, unreachable(h.address));
      assert AskedWithin([t, u], kind, addressesOf, h);
    }
    OnlyTwo(out, a, b);
    OneDeliveryAsks(t, kind, first, did, a);
    OneDeliveryAsks(t, kind, first, did, b);
    assert [t, u][..1] == [t] && AsksFor([t, u][0], kind, addressesOf, a) && !AskedWithin([t], kind, addressesOf, b);
  }

  lemma {:induction false} ThirdRepeats(out: seq<Health>, a: Health, b: Health)
    requires |out| > 2 && forall h :: h in out ==> h == a || h == b
    ensures exists i, j :: 0 <= i < j < |out| && out[i] == out[j]
  {
    assert out[0] in out && out[1] in out && out[2] in out;
  }

  lemma {:induction false} OnlyTwo(out: seq<Health>, a: Health, b: Health)
    requires a in out && b in out && a != b && forall h :: h in out ==> h == a || h == b
    requires forall i, j :: 0 <= i < j < |out| ==> out[i] != out[j]
    ensures out == [a, b] || out == [b, a]
  {
    assert |out| > 1 && out[0] in out && out[1] in out;
    if |out| > 2 {
      ThirdRepeats(out, a, b);
    }
  }

  /**
   Without that consistency the order decides: surveyed in one order, two tasks that put one
   identifier at a reachable and an unreachable address leave its fault reported, in the other
   they do not.
   */
  lemma {:induction false} OrderMattersForSplitIdentifier(
    a: seq<Health>, b: seq<Health>, t: Task, u: Task, kind: Interface, addressesOf: Task -> seq<string>,
    unreachable: string -> bool, did: string, up: string, down: string, delivered: FR.Key -> bool, now: int)
    requires Split(t, u, kind, addressesOf, unreachable, did, up, down) && delivered(DestinationKey(did))
    requires Surveys(a, [t, u], kind, addressesOf, unreachable) && InTaskOrder(a, [t, u], kind, addressesOf)
    requires Surveys(b, [u, t], kind, addressesOf, unreachable) && InTaskOrder(b, [u, t], kind, addressesOf)
    ensures var s, k := FR.Records(map[], {}, {}), DestinationKey(did);
      && k in MakeAll(s, Calls(a), delivered, now).reported
      && k !in MakeAll(s, Calls(b), delivered, now).reported
  {
    TwoTaskSurvey(a, t, u, kind, addressesOf, unreachable, did, up, down);
    TwoTaskSurvey(b, u, t, kind, addressesOf, unreachable, did, down, up);
    SplitHealth(Health(did, up, false), Health(did, down, true), delivered, now);
  }

  lemma {:induction false} SplitHealth(up: Health, down: Health, delivered: FR.Key -> bool, now: int)
    requires up.did == down.did != "" && !up.down && down.down && delivered(DestinationKey(up.did))
    ensures var s, k := FR.Records(map[], {}, {}), DestinationKey(up.did);
      && k in MakeAll(s, Calls([up, down]), delivered, now).reported
      && k !in MakeAll(s, Calls([down, up]), delivered, now).reported
  {
    var s := FR.Records(map[], {}, {});
    var k := DestinationKey(up.did);
    var fault, clear := Call(k, false), Call(k, true);
    assert [up, down][..1] == [up] && [down, up][..1] == [down] && [up][..0] == [] && [down][..0] == [];
    assert DestinationCalls([up]) == [clear] && DestinationCalls([down]) == [fault];
    assert Calls([up, down]) == [clear] + [fault] && Calls([down, up]) == [fault] + [clear];
    MakeOneMore(s, [], clear, delivered, now);
    MakeOneMore(s, [clear], fault, delivered, now);
    MakeOneMore(s, [], fault, delivered, now);
    MakeOneMore(s, [fault], clear, delivered, now);
    assert [] + [fault] == [fault] && [] + [clear] == [clear];
  }

  /** An identified destination is reported when it is down and retracted when it is up, under its own key. */
  lemma {:induction false} DestinationCalledExactlyWhen(health: seq<Health>, did: string, retraction: bool)
    requires did != ""
    ensures Call(FR.Key(FR.DestinationScope, did, "mdfUnreachable"), retraction) in Calls(health) <==>
      exists i :: 0 <= i < |health| && health[i].did == did && health[i].down == !retraction
  {
    var c := Call(DestinationKey(did), retraction);
    DestinationCallsAre(health, c);
    assert c in Calls(health) <==> c in DestinationCalls(health);
    if i :| 0 <= i < |health| && health[i].did == did && health[i].down == !retraction {
      assert c == Call(DestinationKey(health[i].did), !health[i].down);
    }
  }

  /** The element is called clear exactly when it has unidentified destinations and all are up. */
  lemma {:induction false} ElementClearOnlyWhenAllUp(health: seq<Health>)
    ensures var k := FR.Key(FR.Element, "", "mdfUnreachable");
      && (Call(k, true) in Calls(health) <==> AnyUnnamed(health) && !AnyUnnamedDown(health))
      && (Call(k, false) in Calls(health) <==> AnyUnnamedDown(health))
  {
    DestinationCallsAre(health, Call(ELEMENT_KEY, true));
    DestinationCallsAre(health, Call(ELEMENT_KEY, false));
    if i :| 0 <= i < |health| && health[i].did == "" && health[i].down {
      assert AnyUnnamed(health);
    }
  }
}
