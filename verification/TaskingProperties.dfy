/** What every X1 message keeps, and what the events of a run add up to. */
module TaskingProperties {
  import opened Wrappers
  import opened Types
  import opened TaskStore
  import opened Tasking

  // ------------------------------------------------- endpoints follow the tables

  /** A task's stored endpoints are what its DIDs name now, and all of them name something. */
  ghost predicate Agrees(provisioned: Table, configured: Table, t: Task) {
    Resolve(provisioned, configured, t.dids) == Resolution(t.deliveries, [])
  }

  ghost predicate TaskOk(cfg: Config, s: State, xid: TaskId)
    requires xid in s.tasks
  {
    var t := s.tasks[xid];
    && t.xid == xid && IsUuid(xid) && t.active
    && (forall i :: 0 <= i < |t.dids| ==> IsUuid(t.dids[i]))
    && Agrees(s.provisioned, cfg.configured, t)
  }

  ghost predicate Inv(cfg: Config, s: State) {
    forall xid :: xid in s.tasks ==> TaskOk(cfg, s, xid)
  }

  /** A table that answers alike for every DID some task names keeps every task. */
  lemma {:induction false} TablesKeep(cfg: Config, s: State, provisioned: Table)
    requires Inv(cfg, s)
    requires forall did :: Referenced(s.tasks, did) ==>
      Lookup(provisioned, cfg.configured, did) == Lookup(s.provisioned, cfg.configured, did)
    ensures Inv(cfg, s.(provisioned := provisioned))
  {
    var after := s.(provisioned := provisioned);
    forall xid | xid in s.tasks ensures TaskOk(cfg, after, xid) {
      assert TaskOk(cfg, s, xid);
      ResolveReadsOnlyItsDids(s.provisioned, provisioned, cfg.configured, s.tasks[xid].dids);
    }
  }

  /** Every DID some task names resolves. */
  lemma {:induction false} ReferencedResolves(cfg: Config, s: State, did: string)
    requires Inv(cfg, s) && Referenced(s.tasks, did)
    ensures Lookup(s.provisioned, cfg.configured, did).Some?
  {
    var xid :| xid in s.tasks && did in s.tasks[xid].dids;
    assert TaskOk(cfg, s, xid);
    ResolvedMeansFound(s.provisioned, cfg.configured, s.tasks[xid].dids, did);
  }

  lemma {:induction false} ProvisionKeeps(cfg: Config, s: State, destination: Option<DestinationDetails>)
    requires Inv(cfg, s)
    ensures Inv(cfg, Provision(cfg, s, destination).state)
  {
    var o := Provision(cfg, s, destination);
    if o.answer.Acknowledged? {
      var did := destination.value.did;
      if Referenced(s.tasks, did) {
        ReferencedResolves(cfg, s, did);
      }
      TablesKeep(cfg, s, o.state.provisioned);
    }
  }

  lemma {:induction false} RemoveAllKeeps(cfg: Config, s: State)
    requires Inv(cfg, s) && InUse(s) == {}
    ensures Inv(cfg, s.(provisioned := map[]))
  {
    forall did | Referenced(s.tasks, did)
      ensures Lookup(map[], cfg.configured, did) == Lookup(s.provisioned, cfg.configured, did)
    {
      assert did !in InUse(s);
    }
    TablesKeep(cfg, s, map[]);
  }

  lemma {:induction false} TransitionKeeps(cfg: Config, s: State, details: Option<TaskDetails>, isModify: bool,
      applicable: bool)
    requires Inv(cfg, s)
    ensures Inv(cfg, Transition(cfg, s, details, isModify, applicable).state)
  {
    var o := Transition(cfg, s, details, isModify, applicable);
    if o.answer.Acknowledged? {
      forall xid | xid in o.state.tasks ensures TaskOk(cfg, o.state, xid) {
        if xid != details.value.xid {
          assert TaskOk(cfg, s, xid);
        }
      }
    }
  }

  lemma {:induction false} StepKeeps(cfg: Config, s: State, m: Message)
    requires Inv(cfg, s)
    ensures KeyedByXid(s) && Inv(cfg, Step(cfg, s, m).state)
  {
    assert KeyedByXid(s) by {
      forall xid | xid in s.tasks ensures s.tasks[xid].xid == xid {
        assert TaskOk(cfg, s, xid);
      }
    }
    match m {
      case ActivateTask(d, a) => TransitionKeeps(cfg, s, d, false, a);
      case ModifyTask(d, a) => TransitionKeeps(cfg, s, d, true, a);
      case DeactivateTask(xid) => RemoveKeeps(cfg, s, xid);
      case RemoveAllDestinations =>
        if InUse(s) == {} {
          RemoveAllKeeps(cfg, s);
        }
      case CreateDestination(d) => ProvisionKeeps(cfg, s, d);
      case _ =>
    }
  }

  lemma {:induction false} RemoveKeeps(cfg: Config, s: State, xid: TaskId)
    requires Inv(cfg, s)
    ensures Inv(cfg, s.(tasks := s.tasks - {xid}))
  {
    var after := s.(tasks := s.tasks - {xid});
    forall x | x in after.tasks ensures TaskOk(cfg, after, x) {
      assert TaskOk(cfg, s, x);
    }
  }

  // -------------------------------------------------------------------------- events

  function Apply(tasks: map<TaskId, Task>, e: Event): map<TaskId, Task> {
    if e.Purged? then tasks
    else if e.next.Some? then tasks[e.next.value.xid := e.next.value]
    else if e.prev.Some? then tasks - {e.prev.value.xid}
    else tasks
  }

  /** The tasks a listener holds that was told of these events and nothing else. */
  function Fold(tasks: map<TaskId, Task>, events: seq<Event>): map<TaskId, Task> {
    if events == [] then tasks else Apply(Fold(tasks, events[..|events| - 1]), events[|events| - 1])
  }

  /** An event's prev is the task a listener holds under that XID, and a removal's is held. */
  predicate Fits(tasks: map<TaskId, Task>, e: Event) {
    match e
    case Changed(prev, Some(next)) => prev == if next.xid in tasks then Some(tasks[next.xid]) else None
    case Changed(Some(prev), None) => prev.xid in tasks && tasks[prev.xid] == prev
    case Changed(None, None) => false
    case Purged(task, _) => task.xid !in tasks
  }

  ghost predicate Follows(tasks: map<TaskId, Task>, events: seq<Event>) {
    forall i :: 0 <= i < |events| ==> Fits(Fold(tasks, events[..i]), events[i])
  }

  lemma {:induction false} FoldOfConcat(tasks: map<TaskId, Task>, a: seq<Event>, b: seq<Event>)
    ensures Fold(tasks, a + b) == Fold(Fold(tasks, a), b)
  {
    if b == [] {
      assert a + b == a;
    } else {
      var n := |b| - 1;
      FoldOfConcat(tasks, a, b[..n]);
      assert (a + b)[..|a + b| - 1] == a + b[..n];
    }
  }

  lemma {:induction false} FollowsConcat(tasks: map<TaskId, Task>, a: seq<Event>, b: seq<Event>)
    requires Follows(tasks, a) && Follows(Fold(tasks, a), b)
    ensures Follows(tasks, a + b)
  {
    forall i | 0 <= i < |a + b| ensures Fits(Fold(tasks, (a + b)[..i]), (a + b)[i]) {
      if i < |a| {
        assert (a + b)[..i] == a[..i];
      } else {
        FoldOfConcat(tasks, a, b[..i - |a|]);
        assert (a + b)[..i] == a + b[..i - |a|];
      }
    }
  }

  lemma {:induction false} OneEvent(tasks: map<TaskId, Task>, e: Event)
    requires Fits(tasks, e)
    ensures Fold(tasks, [e]) == Apply(tasks, e) && Follows(tasks, [e])
  {
    assert [e][..0] == [];
  }

  lemma {:induction false} OneRemoval(tasks: map<TaskId, Task>, t: Task, reason: Reason)
    requires t.xid in tasks && tasks[t.xid] == t
    ensures Fold(tasks, Removal(t, reason)) == tasks - {t.xid} && Follows(tasks, Removal(t, reason))
  {
    var change, purge := Changed(Some(t), None), Purged(t, reason);
    OneEvent(tasks, change);
    OneEvent(tasks - {t.xid}, purge);
    FoldOfConcat(tasks, [change], [purge]);
    FollowsConcat(tasks, [change], [purge]);
    assert [change] + [purge] == Removal(t, reason);
  }

  function Xids(tasks: seq<Task>): set<TaskId> {
    set i | 0 <= i < |tasks| :: tasks[i].xid
  }

  lemma {:induction false} XidsLast(out: seq<Task>)
    requires out != []
    ensures Xids(out) == Xids(out[..|out| - 1]) + {out[|out| - 1].xid}
  {
    var n := |out| - 1;
    forall xid | xid in Xids(out) ensures xid in Xids(out[..n]) + {out[n].xid} {
      var i :| 0 <= i < |out| && out[i].xid == xid;
      assert i < n ==> out[..n][i].xid == xid;
    }
    forall xid | xid in Xids(out[..n]) ensures xid in Xids(out) {
      var i :| 0 <= i < n && out[..n][i].xid == xid;
      assert out[i].xid == xid;
    }
  }

  lemma {:induction false} LessOneMore(tasks: map<TaskId, Task>, xids: set<TaskId>, xid: TaskId)
    ensures tasks - xids - {xid} == tasks - (xids + {xid})
  {
  }

  lemma {:induction false} ManyRemovals(tasks: map<TaskId, Task>, out: seq<Task>, reason: Reason)
    requires DistinctXids(out)
    requires forall i :: 0 <= i < |out| ==> out[i].xid in tasks && tasks[out[i].xid] == out[i]
    ensures Fold(tasks, Removals(out, reason)) == tasks - Xids(out)
    ensures Follows(tasks, Removals(out, reason))
  {
    if out != [] {
      var n := |out| - 1;
      var front, last := out[..n], out[n];
      ManyRemovals(tasks, front, reason);
      var left := tasks - Xids(front);
      OneRemoval(left, last, reason);
      FoldOfConcat(tasks, Removals(front, reason), Removal(last, reason));
      FollowsConcat(tasks, Removals(front, reason), Removal(last, reason));
      XidsLast(out);
      LessOneMore(tasks, Xids(front), last.xid);
    }
  }

  lemma {:induction false} PurgeFolds(s: State, reason: Reason)
    requires KeyedByXid(s)
    ensures Fold(s.tasks, Purge(s, reason).events) == map[] && Follows(s.tasks, Purge(s, reason).events)
  {
    var out := Listing(s.tasks);
    forall i, j | 0 <= i < j < |out| ensures out[i].xid != out[j].xid {
      BeforeIsTotal(out[i].xid, out[j].xid);
    }
    forall i | 0 <= i < |out| ensures out[i].xid in s.tasks && s.tasks[out[i].xid] == out[i] {
      assert out[i] in out;
    }
    ManyRemovals(s.tasks, out, reason);
    forall xid | xid in s.tasks ensures xid in Xids(out) {
      assert s.tasks[xid] in out;
    }
  }

  /** A listener told one message's events holds what the element holds after it. */
  lemma {:induction false} StepFolds(cfg: Config, s: State, m: Message)
    requires KeyedByXid(s)
    ensures Fold(s.tasks, Step(cfg, s, m).events) == Step(cfg, s, m).state.tasks
    ensures Follows(s.tasks, Step(cfg, s, m).events)
  {
    var o := Step(cfg, s, m);
    match m {
      case DeactivateTask(xid) =>
        if o.answer.Acknowledged? {
          OneRemoval(s.tasks, s.tasks[xid], Withdrawal);
        }
      case DeactivateAllTasks =>
        if o.answer.Acknowledged? {
          PurgeFolds(s, BulkDeactivate);
        }
      case ActivateTask(d, a) => TransitionFolds(cfg, s, d, false, a);
      case ModifyTask(d, a) => TransitionFolds(cfg, s, d, true, a);
      case _ =>
    }
  }

  lemma {:induction false} TransitionFolds(cfg: Config, s: State, details: Option<TaskDetails>, isModify: bool,
      applicable: bool)
    ensures var o := Transition(cfg, s, details, isModify, applicable);
      Fold(s.tasks, o.events) == o.state.tasks && Follows(s.tasks, o.events)
  {
    var o := Transition(cfg, s, details, isModify, applicable);
    if o.events != [] {
      OneEvent(s.tasks, o.events[0]);
    }
  }

  /** A refused message changes nothing and tells nobody. */
  lemma {:induction false} RefusalChangesNothing(cfg: Config, s: State, m: Message)
    requires KeyedByXid(s) && Step(cfg, s, m).answer.Refused?
    ensures Step(cfg, s, m).state == s && Step(cfg, s, m).events == []
  {
  }

  /** Events are sent exactly when the tasks changed. */
  lemma {:induction false} EventsExactlyOnChange(cfg: Config, s: State, m: Message)
    requires KeyedByXid(s)
    ensures Step(cfg, s, m).events == [] <==> Step(cfg, s, m).state.tasks == s.tasks
  {
    if m.DeactivateAllTasks? && !cfg.deactivateAllDisabled && s.tasks != map[] {
      var xid :| xid in s.tasks;
      assert s.tasks[xid] in Listing(s.tasks);
    } else if m.DeactivateAllTasks? && Listing(s.tasks) != [] {
      ListedMeansHeld(Listing(s.tasks), s.tasks);
    }
  }

  lemma {:induction false} ListedMeansHeld(out: seq<Task>, tasks: map<TaskId, Task>)
    requires Lists(out, tasks) && out != []
    ensures tasks != map[]
  {
    assert out[0] in out;
  }

  /** Sending an acknowledged activation again changes nothing and tells nobody. */
  lemma {:induction false} ReplayTellsNobody(cfg: Config, s: State, details: Option<TaskDetails>)
    requires Transition(cfg, s, details, false, true).answer.Acknowledged?
    ensures var o := Transition(cfg, s, details, false, true);
      forall isModify :: Transition(cfg, o.state, details, isModify, true) == Outcome(o.state, Acknowledged, [])
  {
    var o := Transition(cfg, s, details, false, true);
    var stored := TaskFrom(cfg, s, details.value).value.(active := true);
    assert o.state.tasks[stored.xid := stored] == o.state.tasks;
  }

  // ----------------------------------------------------------- correlation numbers

  ghost predicate AllDigits(s: string) {
    forall i :: 0 <= i < |s| ==> '0' <= s[i] <= '9'
  }

  function TenTo(k: nat): nat {
    if k == 0 then 1 else 10 * TenTo(k - 1)
  }

  /** The number decimal digits denote: each digit times the power of ten of its place. */
  function Denoted(s: string): nat
    requires AllDigits(s)
  {
    if s == "" then 0 else (s[0] as int - '0' as int) * TenTo(|s| - 1) + Denoted(s[1..])
  }

  lemma {:induction false} DenotedLast(s: string)
    requires AllDigits(s) && s != ""
    ensures Denoted(s) == 10 * Denoted(s[..|s| - 1]) + (s[|s| - 1] as int - '0' as int)
  {
    var n := |s| - 1;
    if n > 0 {
      var first, last := s[0] as int - '0' as int, s[n] as int - '0' as int;
      DenotedLast(s[1..]);
      assert s[1..][..n - 1] == s[..n][1..];
      assert Denoted(s[..n]) == first * TenTo(n - 1) + Denoted(s[..n][1..]);
      assert first * TenTo(n) == 10 * (first * TenTo(n - 1));
    }
  }

  lemma {:induction false} DecimalIsDenoted(s: string)
    ensures Decimal(s) == if AllDigits(s) then Some(Denoted(s)) else None
  {
    if s != "" {
      var n := |s| - 1;
      DecimalIsDenoted(s[..n]);
      if AllDigits(s) {
        DenotedLast(s);
      } else if AllDigits(s[..n]) {
        assert !('0' <= s[n] <= '9');
      }
    }
  }

  /** A correlation number: decimal digits, at least one, denoting less than 2^64. */
  ghost predicate IsNumber(s: string) {
    s != "" && AllDigits(s) && Denoted(s) < 0x1_0000_0000_0000_0000
  }

  lemma {:induction false} ParsedIsDenoted(s: string)
    ensures ParseUint64(s) == if IsNumber(s) then Some(Denoted(s)) else None
  {
    DecimalIsDenoted(s);
  }

  // ------------------------------------------------- what an acknowledgement promises

  /** The extension that decides the scope: the first one that carries any. */
  ghost predicate FirstAssociation(extensions: seq<Extension>, i: nat, text: string) {
    && i < |extensions| && extensions[i].association == Some(text)
    && forall j :: 0 <= j < i ==> extensions[j].association.None?
  }

  lemma {:induction false} ScopeIsFirst(extensions: seq<Extension>, i: nat, text: string)
    requires FirstAssociation(extensions, i, text)
    ensures Scope(extensions) == if text == "IdentifierAssociation" then IdentifierAssociation else All
  {
    if i > 0 {
      ScopeIsFirst(extensions[1..], i - 1, text);
    }
  }

  /** The product ordered: IRI over X2, content over X3, each once. */
  ghost predicate Ordered(products: seq<Product>, t: DeliveryType) {
    && (IRI in products <==> t.X2Only? || t.X2andX3?)
    && (CC in products <==> t.X3Only? || t.X2andX3?)
    && (t.X2andX3? ==> products == [IRI, CC])
    && forall i, j :: 0 <= i < j < |products| ==> products[i] != products[j]
  }

  lemma {:induction false} AcknowledgedIsHeld(cfg: Config, s: State, details: Option<TaskDetails>,
      isModify: bool, applicable: bool)
    requires Transition(cfg, s, details, isModify, applicable).answer.Acknowledged?
    ensures details.Some?
    ensures var td, after := details.value, Transition(cfg, s, details, isModify, applicable).state;
      && td.xid in after.tasks && after.provisioned == s.provisioned
      && Agrees(after.provisioned, cfg.configured, after.tasks[td.xid]) && after.tasks[td.xid].dids == td.dids
  {
  }

  /**
   A task the element acknowledged is held as ordered and can be carried out: the product, scope
   and correlation number are those of the message, every DID it names resolves, the identifiers
   intercepted on are exactly those its targets map to, and content has somewhere to go where
   that is required.
   */
  lemma {:induction false} AcknowledgedIsCarriedOut(cfg: Config, s: State, details: Option<TaskDetails>,
      isModify: bool, applicable: bool)
    requires Transition(cfg, s, details, isModify, applicable).answer.Acknowledged?
    ensures applicable && details.Some? && IsUuid(details.value.xid)
    ensures var td, after := details.value, Transition(cfg, s, details, isModify, applicable).state;
      && td.xid in after.tasks
      && var t := after.tasks[td.xid];
         && t.xid == td.xid && t.active && t.dids == td.dids && t.productId == td.productId
         && Agrees(after.provisioned, cfg.configured, t)
         && (forall i :: 0 <= i < |td.dids| ==> Lookup(after.provisioned, cfg.configured, td.dids[i]).Some?)
         && (forall i :: 0 <= i < |td.targets| ==> td.targets[i].mapped.Some?)
         && (forall id :: id in t.targets <==>
               exists i :: 0 <= i < |td.targets| && td.targets[i].mapped.Some? && id in td.targets[i].mapped.value)
         && Ordered(t.products, td.deliveryType)
         && (td.extensions == [] ==> t.scope == Standard)
         && (forall i: nat, text :: FirstAssociation(td.extensions, i, text) ==>
               && (t.scope == IdentifierAssociation <==> text == "IdentifierAssociation")
               && (t.scope == All <==> text == "All"))
         && (td.correlation == "" ==> t.correlation == 0)
         && (td.correlation != "" ==> IsNumber(td.correlation) && t.correlation == Denoted(td.correlation))
         && (cfg.requireDids && CC in t.products ==> HasDelivery(t.deliveries, X3))
    ensures isModify ==> details.value.xid in s.tasks
  {
    var td := details.value;
    forall i | 0 <= i < |td.dids| ensures Lookup(s.provisioned, cfg.configured, td.dids[i]).Some? {
      ResolvedMeansFound(s.provisioned, cfg.configured, td.dids, td.dids[i]);
    }
    MapTargetsKeeps(td.targets);
    ParsedIsDenoted(td.correlation);
    forall i: nat, text | FirstAssociation(td.extensions, i, text)
      ensures Scope(td.extensions) == if text == "IdentifierAssociation" then IdentifierAssociation else All
      ensures text == "IdentifierAssociation" || text == "All"
    {
      ScopeIsFirst(td.extensions, i, text);
      assert ExtensionHonourable(td.extensions[i]);
    }
  }

  lemma {:induction false} MapTargetsKeeps(targets: seq<Target>)
    requires MapTargets(targets).Some?
    ensures forall i :: 0 <= i < |targets| ==> targets[i].mapped.Some?
    ensures forall id :: id in MapTargets(targets).value <==>
      exists i :: 0 <= i < |targets| && targets[i].mapped.Some? && id in targets[i].mapped.value
  {
    if targets != [] {
      var n := |targets| - 1;
      MapTargetsKeeps(targets[..n]);
      forall id ensures id in MapTargets(targets).value <==>
        exists i :: 0 <= i < |targets| && targets[i].mapped.Some? && id in targets[i].mapped.value
      {
        if i :| 0 <= i < n && targets[..n][i].mapped.Some? && id in targets[..n][i].mapped.value {
          assert targets[i] == targets[..n][i];
        }
        if i :| 0 <= i < n && targets[i].mapped.Some? && id in targets[i].mapped.value {
          assert targets[..n][i] == targets[i];
        }
      }
    }
  }

  /** A destination created and then named by a task is where the task delivers, per interface. */
  lemma {:induction false} CreatedThenNamed(
    cfg: Config, s: State, destination: Option<DestinationDetails>, details: Option<TaskDetails>, applicable: bool)
    requires Provision(cfg, s, destination).answer.Acknowledged?
    requires details.Some? && details.value.dids == [destination.value.did]
    requires Transition(cfg, Provision(cfg, s, destination).state, details, false, applicable).answer.Acknowledged?
    ensures var d := destination.value;
      var t := Transition(cfg, Provision(cfg, s, destination).state, details, false,
        applicable).state.tasks[details.value.xid];
      && (forall e :: e in t.deliveries ==> e.address == d.address.value && e.did == d.did)
      && (HasDelivery(t.deliveries, X2) <==>
        (d.deliveryType.X2Only? || d.deliveryType.X2andX3?) && d.address.value != "")
      && (HasDelivery(t.deliveries, X3) <==>
        (d.deliveryType.X3Only? || d.deliveryType.X2andX3?) && d.address.value != "")
  {
    var d := destination.value;
    var created := Provision(cfg, s, destination).state;
    AcknowledgedIsHeld(cfg, created, details, false, applicable);
    var dest := created.provisioned[d.did];
    assert [d.did][..0] == [];
    assert Resolve(created.provisioned, cfg.configured, [d.did]).endpoints == [] + Endpoints(dest, d.did);
    EndpointsServe(dest, d.did);
    var after := Transition(cfg, created, details, false, applicable).state;
    assert after.provisioned == created.provisioned;
    assert after.tasks[details.value.xid].deliveries == Endpoints(dest, d.did);
  }

  lemma {:induction false} EndpointsServe(d: Destination, did: string)
    ensures forall e :: e in Endpoints(d, did) ==> e.address == d.address && e.did == did
    ensures HasDelivery(Endpoints(d, did), X2) <==>
      (d.deliveryType.X2Only? || d.deliveryType.X2andX3?) && d.address != ""
    ensures HasDelivery(Endpoints(d, did), X3) <==>
      (d.deliveryType.X3Only? || d.deliveryType.X2andX3?) && d.address != ""
  {
    var es := Endpoints(d, did);
    if d.address != "" && d.deliveryType.X2andX3? {
      assert es[0].kind == X2 && es[1].kind == X3;
    } else if d.address != "" && es != [] {
      assert es[0].address != "";
    }
  }

  // ------------------------------------------------------------------------------ runs

  datatype Ran = Ran(state: State, events: seq<Event>)

  ghost function Exec(cfg: Config, s: State, messages: seq<Message>): Ran
    requires Inv(cfg, s)
    decreases |messages|
  {
    if messages == [] then Ran(s, [])
    else
      StepKeeps(cfg, s, messages[0]);
      var o := Step(cfg, s, messages[0]);
      var rest := Exec(cfg, o.state, messages[1..]);
      Ran(rest.state, o.events + rest.events)
  }

  lemma {:induction false} RunKeeps(cfg: Config, s: State, messages: seq<Message>)
    requires Inv(cfg, s)
    ensures var ran := Exec(cfg, s, messages);
      Inv(cfg, ran.state) && Fold(s.tasks, ran.events) == ran.state.tasks && Follows(s.tasks, ran.events)
    decreases |messages|
  {
    if messages != [] {
      StepKeeps(cfg, s, messages[0]);
      StepFolds(cfg, s, messages[0]);
      var o := Step(cfg, s, messages[0]);
      RunKeeps(cfg, o.state, messages[1..]);
      var rest := Exec(cfg, o.state, messages[1..]);
      FoldOfConcat(s.tasks, o.events, rest.events);
      FollowsConcat(s.tasks, o.events, rest.events);
    }
  }

  const Empty := State(map[], map[])

  /**
   In every reachable state every held task's endpoints are exactly what its DIDs name in the
   tables as they are now, with nothing unresolved.
   */
  lemma {:induction false} EndpointsNeverDrift(cfg: Config, messages: seq<Message>)
    ensures var s := Exec(cfg, Empty, messages).state;
      forall xid :: xid in s.tasks ==>
        Resolve(s.provisioned, cfg.configured, s.tasks[xid].dids) == Resolution(s.tasks[xid].deliveries, [])
  {
    RunKeeps(cfg, Empty, messages);
    var s := Exec(cfg, Empty, messages).state;
    forall xid | xid in s.tasks
      ensures Resolve(s.provisioned, cfg.configured, s.tasks[xid].dids) == Resolution(s.tasks[xid].deliveries, [])
    {
      assert TaskOk(cfg, s, xid);
    }
  }

  /** The events of a run, folded, are the store; each event's prev is what the fold held. */
  lemma {:induction false} EventsAddUpToTheStore(cfg: Config, messages: seq<Message>)
    ensures var ran := Exec(cfg, Empty, messages);
      Fold(map[], ran.events) == ran.state.tasks && Follows(map[], ran.events)
  {
    RunKeeps(cfg, Empty, messages);
  }
}
