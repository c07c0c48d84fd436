/**
 What a provisioning message is answered and what it leaves, said of the message and the tables
 themselves: for every message exactly when it is acknowledged, which refusal it is given, and
 what the point of interception is told.
 */
module TaskingAnswers {
  import opened Wrappers
  import opened Types
  import opened TaskStore
  import opened Tasking
  import opened TaskingProperties

  // -------------------------------------------------------------------------- identifiers

  ghost predicate LowerHex(s: string, n: nat) {
    |s| == n && forall i :: 0 <= i < n ==> s[i] in "0123456789abcdef"
  }

  ghost predicate FiveGroups(s: string, a: string, b: string, c: string, d: string, e: string) {
    && LowerHex(a, 8) && LowerHex(b, 4) && LowerHex(c, 4) && LowerHex(d, 4) && LowerHex(e, 12)
    && s == a + "-" + b + "-" + c + "-" + d + "-" + e
  }

  lemma {:induction false} HexadecimalIs(c: char)
    ensures Hexadecimal(c) <==> c in "0123456789abcdef"
  {
    var digits := "0123456789abcdef";
    if Hexadecimal(c) {
      var k := if c <= '9' then c as int - '0' as int else 10 + (c as int - 'a' as int);
      assert digits[k] == c;
    }
  }

  lemma {:induction false} GroupsAreUuid(s: string, a: string, b: string, c: string, d: string, e: string)
    requires FiveGroups(s, a, b, c, d, e)
    ensures IsUuid(s)
  {
    forall i | 0 <= i < 36
      ensures if i == 8 || i == 13 || i == 18 || i == 23 then s[i] == '-' else Hexadecimal(s[i])
    {
      HexadecimalIs(s[i]);
    }
  }

  lemma {:induction false} UuidGroup(s: string, from: nat, n: nat)
    requires IsUuid(s) && from + n <= 36
    requires from + n <= 8 || 9 <= from <= from + n <= 13 || 14 <= from <= from + n <= 18
      || 19 <= from <= from + n <= 23 || 24 <= from
    ensures LowerHex(s[from..from + n], n)
  {
    var group := s[from..from + n];
    forall i | 0 <= i < |group| ensures group[i] in "0123456789abcdef" {
      HexadecimalIs(s[from + i]);
    }
  }

  lemma {:induction false} Hyphenated(s: string)
    requires |s| == 36 && s[8] == s[13] == s[18] == s[23] == '-'
    ensures s == s[0..8] + "-" + s[9..13] + "-" + s[14..18] + "-" + s[19..23] + "-" + s[24..36]
  {
  }

  /** The UUID format: 8, 4, 4, 4 and 12 lower-case hexadecimal digits with hyphens between. */
  lemma {:induction false} UuidIsFiveGroups(s: string)
    ensures IsUuid(s) <==> exists a, b, c, d, e :: FiveGroups(s, a, b, c, d, e)
  {
    if IsUuid(s) {
      UuidGroup(s, 0, 8);
      UuidGroup(s, 9, 4);
      UuidGroup(s, 14, 4);
      UuidGroup(s, 19, 4);
      UuidGroup(s, 24, 12);
      Hyphenated(s);
      assert FiveGroups(s, s[0..8], s[9..13], s[14..18], s[19..23], s[24..36]);
    } else if a, b, c, d, e :| FiveGroups(s, a, b, c, d, e) {
      GroupsAreUuid(s, a, b, c, d, e);
    }
  }

  // ---------------------------------------------------------------- targets and destinations

  lemma {:induction false} Regroup<T>(a: seq<T>, b: seq<T>, c: seq<T>)
    ensures a + b + c == a + (b + c)
  {
  }

  lemma {:induction false} MapTargetsTogether(a: seq<Target>, b: seq<Target>)
    ensures MapTargets(a + b) ==
      if MapTargets(a).None? || MapTargets(b).None? then None else Some(MapTargets(a).value + MapTargets(b).value)
  {
    if b == [] {
      assert a + b == a;
      if MapTargets(a).Some? {
        assert MapTargets(a).value + [] == MapTargets(a).value;
      }
    } else {
      var n := |b| - 1;
      MapTargetsTogether(a, b[..n]);
      assert (a + b)[..|a| + n] == a + b[..n] && (a + b)[|a| + n] == b[n];
      if MapTargets(a).Some? && MapTargets(b).Some? {
        Regroup(MapTargets(a).value, MapTargets(b[..n]).value, b[n].mapped.value);
      }
    }
  }

  lemma {:induction false} MapsOne(t: Target)
    ensures MapTargets([t]) == t.mapped
  {
    assert [t][..0] == [];
    if t.mapped.Some? {
      assert [] + t.mapped.value == t.mapped.value;
    }
  }

  lemma {:induction false} MapsAllOrNothing(targets: seq<Target>)
    ensures MapTargets(targets).Some? <==> forall i :: 0 <= i < |targets| ==> targets[i].mapped.Some?
  {
    if targets != [] {
      MapsAllOrNothing(targets[..|targets| - 1]);
    }
  }

  /** The destination a DID names: the provisioned one, else the configured one. */
  ghost predicate Names(provisioned: Table, configured: Table, did: string, d: Destination) {
    if did in provisioned then provisioned[did] == d else did in configured && configured[did] == d
  }

  /** One DID: its destination's interfaces, X2 before X3, or itself as unresolved. */
  lemma {:induction false} ResolvesOne(p: Table, configured: Table, did: string)
    ensures did !in p && did !in configured ==> Resolve(p, configured, [did]) == Resolution([], [did])
    ensures forall d :: Names(p, configured, did, d) ==>
      Resolve(p, configured, [did]) == Resolution(
        match d.deliveryType
        case X2Only => [Endpoint(X2, d.address, did)]
        case X3Only => [Endpoint(X3, d.address, did)]
        case X2andX3 => [Endpoint(X2, d.address, did), Endpoint(X3, d.address, did)]
        case Unknown(_) => [], [])
  {
    assert [did][..0] == [];
  }

  /** A list of DIDs resolves DID by DID, in order. */
  lemma {:induction false} ResolvesInOrder(p: Table, configured: Table, a: seq<string>, b: seq<string>)
    ensures var x, y := Resolve(p, configured, a), Resolve(p, configured, b);
      Resolve(p, configured, a + b) == Resolution(x.endpoints + y.endpoints, x.unresolved + y.unresolved)
  {
    if b == [] {
      assert a + b == a;
    } else {
      var n := |b| - 1;
      ResolvesInOrder(p, configured, a, b[..n]);
      assert (a + b)[..|a| + n] == a + b[..n] && (a + b)[|a| + n] == b[n];
      var x, y := Resolve(p, configured, a), Resolve(p, configured, b[..n]);
      Regroup(x.unresolved, y.unresolved, [b[n]]);
      var dest := Lookup(p, configured, b[n]);
      if dest.Some? {
        Regroup(x.endpoints, y.endpoints, Endpoints(dest.value, b[n]));
      }
    }
  }

  lemma {:induction false} UnresolvedAre(p: Table, configured: Table, dids: seq<string>)
    ensures Resolve(p, configured, dids).unresolved == [] <==>
      forall i :: 0 <= i < |dids| ==> dids[i] in p || dids[i] in configured
  {
    if dids != [] {
      UnresolvedAre(p, configured, dids[..|dids| - 1]);
    }
  }

  /** Some DID names a destination that takes content at an address. */
  ghost predicate ContentHasSomewhereToGo(p: Table, configured: Table, dids: seq<string>) {
    exists i, d :: 0 <= i < |dids| && TakesContent(p, configured, dids[i], d)
  }

  ghost predicate TakesContent(p: Table, configured: Table, did: string, d: Destination) {
    Names(p, configured, did, d) && (d.deliveryType.X3Only? || d.deliveryType.X2andX3?) && d.address != ""
  }

  lemma {:induction false} X3DeliveryIs(p: Table, configured: Table, dids: seq<string>)
    ensures HasDelivery(Resolve(p, configured, dids).endpoints, X3) <==> ContentHasSomewhereToGo(p, configured, dids)
  {
    if dids != [] {
      var n := |dids| - 1;
      var front, did := dids[..n], dids[n];
      X3DeliveryIs(p, configured, front);
      var before := Resolve(p, configured, front).endpoints;
      var dest := Lookup(p, configured, did);
      var mine := if dest.None? then [] else Endpoints(dest.value, did);
      assert Resolve(p, configured, dids).endpoints == before + mine;
      HasDeliveryTogether(before, mine, X3);
      if dest.Some? {
        EndpointsServe(dest.value, did);
        assert TakesContent(p, configured, did, dest.value) <==> HasDelivery(mine, X3);
      }
      assert forall d :: TakesContent(p, configured, did, d) ==> dest == Some(d);
      LaterDid(p, configured, front, did);
      assert dids == front + [did];
    }
  }

  lemma {:induction false} HasDeliveryTogether(a: seq<Endpoint>, b: seq<Endpoint>, kind: Interface)
    ensures HasDelivery(a + b, kind) <==> HasDelivery(a, kind) || HasDelivery(b, kind)
  {
    var all := a + b;
    if i :| 0 <= i < |a| && a[i].kind == kind && a[i].address != "" {
      assert all[i] == a[i];
    }
    if i :| 0 <= i < |b| && b[i].kind == kind && b[i].address != "" {
      assert all[|a| + i] == b[i];
    }
  }

  lemma {:induction false} LaterDid(p: Table, configured: Table, front: seq<string>, did: string)
    ensures ContentHasSomewhereToGo(p, configured, front + [did]) <==>
      ContentHasSomewhereToGo(p, configured, front) ||
      exists d :: TakesContent(p, configured, did, d)
  {
    var all := front + [did];
    if ContentHasSomewhereToGo(p, configured, front) {
      var i, d :| 0 <= i < |front| && TakesContent(p, configured, front[i], d);
      assert all[i] == front[i];
    }
    assert all[|front|] == did;
  }

  // ------------------------------------------------------------------ activating, modifying

  /** Every extension is the 3GPP one, asks for one of the two scopes and for nothing else. */
  ghost predicate ExtensionsUnderstood(extensions: seq<Extension>) {
    forall i :: 0 <= i < |extensions| ==>
      && extensions[i].owner == "3GPP" && extensions[i].otherContent == 0
      && (extensions[i].association == Some("IdentifierAssociation") || extensions[i].association == Some("All"))
  }

  /** The fields that must be UUIDs or may be left empty are, and each target fits its type. */
  ghost predicate FormatsOk(td: TaskDetails) {
    && (td.xid == "" || IsUuid(td.xid)) && (td.productId == "" || IsUuid(td.productId))
    && (forall i :: 0 <= i < |td.dids| ==> IsUuid(td.dids[i]))
    && (forall i :: 0 <= i < |td.targets| ==> td.targets[i].wellFormed)
  }

  /** Nothing is asked for that the element would silently not do. */
  ghost predicate NothingExtraAsked(cfg: Config, td: TaskDetails) {
    && (td.correlation != "" ==> cfg.honoursCorrelation)
    && td.serviceTypes == 0 && td.trafficPolicies == 0 && td.destinationSets == 0
    && ExtensionsUnderstood(td.extensions)
  }

  ghost predicate AllMapped(td: TaskDetails) {
    forall i :: 0 <= i < |td.targets| ==> td.targets[i].mapped.Some?
  }

  ghost predicate AllFound(cfg: Config, s: State, td: TaskDetails) {
    forall i :: 0 <= i < |td.dids| ==> td.dids[i] in s.provisioned || td.dids[i] in cfg.configured
  }

  ghost predicate ContentIsStranded(cfg: Config, s: State, td: TaskDetails) {
    cfg.requireDids && (td.deliveryType.X3Only? || td.deliveryType.X2andX3?)
    && !ContentHasSomewhereToGo(s.provisioned, cfg.configured, td.dids)
  }

  /** The answer to ActivateTask and ModifyTask, defect by defect in the order they are looked for. */
  lemma {:induction false} TaskAnswer(cfg: Config, s: State, details: Option<TaskDetails>, isModify: bool,
      applicable: bool)
    ensures Transition(cfg, s, details, isModify, applicable).answer ==
      if details.None? then Refused(MissingDetails)
      else
        var td := details.value;
        if !FormatsOk(td) then Refused(Malformed)
        else if !NothingExtraAsked(cfg, td) then Refused(Unhonourable)
        else if isModify && td.xid !in s.tasks then Refused(NoSuchTask)
        else if td.xid == "" then Refused(MissingXid)
        else if td.targets == [] then Refused(NoTarget)
        else if !AllMapped(td) then Refused(UnmappableTarget)
        else if td.deliveryType.Unknown? then Refused(UnknownDeliveryType)
        else if td.correlation != "" && !IsNumber(td.correlation) then Refused(BadCorrelation)
        else if !AllFound(cfg, s, td) then
          Refused(Unresolved(Resolve(s.provisioned, cfg.configured, td.dids).unresolved))
        else if ContentIsStranded(cfg, s, td) then Refused(NoX3Destination)
        else if !applicable then Refused(Inapplicable)
        else Acknowledged
  {
    if details.Some? {
      var td := details.value;
      assert FormatsOk(td) <==> IdentifiersWellFormed(td);
      assert NothingExtraAsked(cfg, td) <==> Honourable(td, cfg.honoursCorrelation);
      MapsAllOrNothing(td.targets);
      ParsedIsDenoted(td.correlation);
      UnresolvedAre(s.provisioned, cfg.configured, td.dids);
      X3DeliveryIs(s.provisioned, cfg.configured, td.dids);
      BuiltOrRefused(cfg, s, td);
    }
  }

  lemma {:induction false} BuiltOrRefused(cfg: Config, s: State, td: TaskDetails)
    requires MapTargets(td.targets).Some? <==> AllMapped(td)
    requires ParseUint64(td.correlation).Some? <==> IsNumber(td.correlation)
    requires Resolve(s.provisioned, cfg.configured, td.dids).unresolved == [] <==> AllFound(cfg, s, td)
    requires HasDelivery(Resolve(s.provisioned, cfg.configured, td.dids).endpoints, X3) <==>
      ContentHasSomewhereToGo(s.provisioned, cfg.configured, td.dids)
    ensures var r := TaskFrom(cfg, s, td);
      if td.xid == "" then r == Failure(MissingXid)
      else if td.targets == [] then r == Failure(NoTarget)
      else if !AllMapped(td) then r == Failure(UnmappableTarget)
      else if td.deliveryType.Unknown? then r == Failure(UnknownDeliveryType)
      else if td.correlation != "" && !IsNumber(td.correlation) then r == Failure(BadCorrelation)
      else if !AllFound(cfg, s, td) then
        r == Failure(Unresolved(Resolve(s.provisioned, cfg.configured, td.dids).unresolved))
      else if ContentIsStranded(cfg, s, td) then r == Failure(NoX3Destination)
      else r.Success?
  {
  }

  /** A task is acknowledged exactly when nothing about it is wrong. */
  lemma {:induction false} TaskAcknowledgedExactlyWhen(cfg: Config, s: State, details: Option<TaskDetails>,
      isModify: bool, applicable: bool)
    ensures Transition(cfg, s, details, isModify, applicable).answer.Acknowledged? <==>
      && details.Some? && applicable
      && var td := details.value;
         && IsUuid(td.xid) && FormatsOk(td) && NothingExtraAsked(cfg, td)
         && (isModify ==> td.xid in s.tasks)
         && td.targets != [] && AllMapped(td) && !td.deliveryType.Unknown?
         && (td.correlation == "" || IsNumber(td.correlation))
         && AllFound(cfg, s, td) && !ContentIsStranded(cfg, s, td)
  {
    TaskAnswer(cfg, s, details, isModify, applicable);
  }

  // -------------------------------------------------------------------- the other messages

  ghost predicate SomeTaskNames(s: State, did: string) {
    exists xid :: xid in s.tasks && did in s.tasks[xid].dids
  }

  /** The answer to CreateDestination, and the one destination it adds. */
  lemma {:induction false} DestinationAnswer(cfg: Config, s: State, destination: Option<DestinationDetails>)
    ensures var o := Provision(cfg, s, destination);
      && o.events == [] && o.state.tasks == s.tasks
      && o.answer ==
           (if destination.None? then Refused(MissingDetails)
            else
              var d := destination.value;
              if d.did == "" then Refused(MissingDid)
              else if !IsUuid(d.did) then Refused(Malformed)
              else if d.deliveryType.Unknown? then Refused(UnknownDeliveryType)
              else if !ExtensionsUnderstood(d.extensions) then Refused(Unhonourable)
              else if d.address.None? then Refused(BadAddress)
              else if d.did in s.provisioned then Refused(AlreadyPresent)
              else if d.did in cfg.configured && SomeTaskNames(s, d.did) then Refused(ConfiguredAndInUse)
              else Acknowledged)
      && (o.answer.Acknowledged? ==>
            var d := destination.value;
            && o.state.provisioned.Keys == s.provisioned.Keys + {d.did}
            && o.state.provisioned[d.did] == Destination(d.address.value, d.deliveryType, d.friendlyName, false)
            && forall did :: did in s.provisioned ==> o.state.provisioned[did] == s.provisioned[did])
  {
    if destination.Some? {
      var e := destination.value.extensions;
      assert ExtensionsUnderstood(e) <==> ExtensionsHonourable(e);
      assert SomeTaskNames(s, destination.value.did) <==> Referenced(s.tasks, destination.value.did);
    }
  }

  /** The answers to the remaining messages. */
  lemma {:induction false} OtherAnswers(cfg: Config, s: State, m: Message)
    requires KeyedByXid(s) && !m.ActivateTask? && !m.ModifyTask? && !m.CreateDestination?
    ensures Step(cfg, s, m).answer ==
      match m
      case DeactivateTask(xid) =>
        if xid == "" then Refused(MissingXid)
        else if !IsUuid(xid) then Refused(Malformed)
        else if xid !in s.tasks then Refused(NoSuchTask)
        else Acknowledged
      case DeactivateAllTasks => if cfg.deactivateAllDisabled then Refused(NotEnabled) else Acknowledged
      case RemoveAllDestinations =>
        if !cfg.removeAllEnabled then Refused(NotEnabled)
        else if exists did :: did in s.provisioned && SomeTaskNames(s, did) then Refused(DestinationsInUse)
        else Acknowledged
      case GetTask(xid) =>
        if xid in s.tasks then Acknowledged else if xid == "" then Refused(MissingXid) else Refused(NoSuchTask)
      case GetDestination(did) =>
        if did == "" then Refused(MissingDid)
        else if did in s.provisioned || did in cfg.configured then Acknowledged
        else Refused(NoSuchDestination)
      case Query => Acknowledged
      case _ => Refused(UnsupportedRequest)
  {
    forall did ensures SomeTaskNames(s, did) <==> Referenced(s.tasks, did) {
    }
    if did :| did in s.provisioned && SomeTaskNames(s, did) {
      assert did in InUse(s);
    }
  }

  /** What each acknowledged message leaves: the tasks and destinations it names, and no others, changed. */
  lemma {:induction false} AcknowledgedLeaves(cfg: Config, s: State, m: Message)
    requires KeyedByXid(s) && Step(cfg, s, m).answer.Acknowledged?
    ensures var after := Step(cfg, s, m).state;
      match m
      case ActivateTask(d, _) =>
        && after.provisioned == s.provisioned && after.tasks.Keys == s.tasks.Keys + {d.value.xid}
        && forall xid :: xid in s.tasks && xid != d.value.xid ==> after.tasks[xid] == s.tasks[xid]
      case ModifyTask(d, _) =>
        && after.provisioned == s.provisioned && after.tasks.Keys == s.tasks.Keys && d.value.xid in s.tasks
        && forall xid :: xid in s.tasks && xid != d.value.xid ==> after.tasks[xid] == s.tasks[xid]
      case DeactivateTask(x) =>
        && after.provisioned == s.provisioned && after.tasks.Keys == s.tasks.Keys - {x}
        && forall xid :: xid in s.tasks && xid != x ==> after.tasks[xid] == s.tasks[xid]
      case DeactivateAllTasks => after == s.(tasks := map[])
      case RemoveAllDestinations => after == s.(provisioned := map[])
      case CreateDestination(d) => after.tasks == s.tasks
      case _ => after == s
  {
  }

  // ----------------------------------------------------------------------- what is told

  /** From there on, each task is told of as changed to nothing and then as purged. */
  ghost predicate InPairs(events: seq<Event>, from: nat, tasks: seq<Task>, reason: Reason) {
    from + 2 * |tasks| <= |events| &&
    forall i :: 0 <= i < |tasks| ==>
      events[from + 2 * i] == Changed(Some(tasks[i]), None) && events[from + 2 * i + 1] == Purged(tasks[i], reason)
  }

  lemma {:induction false} RemovalsInPairs(tasks: seq<Task>, reason: Reason, events: seq<Event>)
    requires events == Removals(tasks, reason)
    ensures |events| == 2 * |tasks| && InPairs(events, 0, tasks, reason)
  {
    if tasks != [] {
      var n := |tasks| - 1;
      var before := Removals(tasks[..n], reason);
      RemovalsInPairs(tasks[..n], reason, before);
      assert events == before + [Changed(Some(tasks[n]), None), Purged(tasks[n], reason)];
    }
  }

  /**
   Each removal is told twice, once as a change to nothing and once as a purge with its reason:
   a withdrawal for the one task, a bulk deactivation for every task in XID order.
   */
  lemma {:induction false} RemovalsAreTold(cfg: Config, s: State, m: Message)
    requires KeyedByXid(s) && Step(cfg, s, m).answer.Acknowledged?
    ensures m.DeactivateTask? ==>
      Step(cfg, s, m).events == [Changed(Some(s.tasks[m.xid]), None), Purged(s.tasks[m.xid], Withdrawal)]
    ensures m.DeactivateAllTasks? ==>
      var events, out := Step(cfg, s, m).events, Listing(s.tasks);
      |events| == 2 * |out| && InPairs(events, 0, out, BulkDeactivate)
  {
    if m.DeactivateAllTasks? {
      RemovalsInPairs(Listing(s.tasks), BulkDeactivate, Step(cfg, s, m).events);
    }
  }

  /** An activation or modification tells of the task held before and the one held now, or of nothing. */
  lemma {:induction false} ChangeIsTold(cfg: Config, s: State, details: Option<TaskDetails>, isModify: bool,
      applicable: bool)
    requires Transition(cfg, s, details, isModify, applicable).answer.Acknowledged?
    ensures var o, xid := Transition(cfg, s, details, isModify, applicable), details.value.xid;
      && xid in o.state.tasks
      && var prev, next := (if xid in s.tasks then Some(s.tasks[xid]) else None), Some(o.state.tasks[xid]);
         o.events == if prev == next then [] else [Changed(prev, next)]
  {
  }
}
