/**
 The X1 tasking state machine, x1/x1.go: what each provisioning message does to the tasks and
 the provisioned destinations an element holds, what it is answered, and the events it sends
 to the point of interception. Each message is one step: the source runs it under its
 transition lock.
 */
module Tasking {
  import opened Wrappers
  import opened Types
  import opened TaskStore

  // --------------------------------------------------------------------- destinations

  datatype DeliveryType = X2Only | X3Only | X2andX3 | Unknown(text: string)

  datatype Destination = Destination(
    address: string,
    deliveryType: DeliveryType,
    friendlyName: string,
    configured: bool)

  type Table = map<string, Destination>

  function Endpoints(d: Destination, did: string): seq<Endpoint> {
    match d.deliveryType
    case X2Only => [Endpoint(X2, d.address, did)]
    case X3Only => [Endpoint(X3, d.address, did)]
    case X2andX3 => [Endpoint(X2, d.address, did), Endpoint(X3, d.address, did)]
    case Unknown(_) => []
  }

  /** A provisioned destination takes precedence over a configured one. */
  function Lookup(provisioned: Table, configured: Table, did: string): Option<Destination> {
    if did in provisioned then Some(provisioned[did])
    else if did in configured then Some(configured[did])
    else None
  }

  datatype Resolution = Resolution(endpoints: seq<Endpoint>, unresolved: seq<string>)

  /** The endpoints a list of DIDs names, in order, and the DIDs that name none. */
  function Resolve(provisioned: Table, configured: Table, dids: seq<string>): Resolution {
    if dids == [] then Resolution([], [])
    else
      var front := Resolve(provisioned, configured, dids[..|dids| - 1]);
      var did := dids[|dids| - 1];
      match Lookup(provisioned, configured, did)
      case None => Resolution(front.endpoints, front.unresolved + [did])
      case Some(d) => Resolution(front.endpoints + Endpoints(d, did), front.unresolved)
  }

  lemma {:induction false} ResolveReadsOnlyItsDids(p: Table, q: Table, configured: Table, dids: seq<string>)
    requires forall did :: did in dids ==> Lookup(p, configured, did) == Lookup(q, configured, did)
    ensures Resolve(p, configured, dids) == Resolve(q, configured, dids)
  {
    if dids != [] {
      ResolveReadsOnlyItsDids(p, q, configured, dids[..|dids| - 1]);
    }
  }

  lemma {:induction false} ResolvedMeansFound(p: Table, configured: Table, dids: seq<string>, did: string)
    requires Resolve(p, configured, dids).unresolved == [] && did in dids
    ensures Lookup(p, configured, did).Some?
  {
    if did != dids[|dids| - 1] {
      assert dids == dids[..|dids| - 1] + [dids[|dids| - 1]];
      ResolvedMeansFound(p, configured, dids[..|dids| - 1], did);
    }
  }

  /** Every endpoint resolved is one of the endpoints its own DID names. */
  lemma {:induction false} ResolvedEndpointNamesItsDid(p: Table, configured: Table, dids: seq<string>, e: Endpoint)
    requires e in Resolve(p, configured, dids).endpoints
    ensures e.did in dids && Lookup(p, configured, e.did).Some?
    ensures e in Endpoints(Lookup(p, configured, e.did).value, e.did)
  {
    var n := |dids| - 1;
    var front := Resolve(p, configured, dids[..n]);
    if e in front.endpoints {
      ResolvedEndpointNamesItsDid(p, configured, dids[..n], e);
    }
  }

  // --------------------------------------------------------------------------- requests

  predicate Hexadecimal(c: char) {
    'a' <= c <= 'f' || '0' <= c <= '9'
  }

  /** The UUID format of TS 103 280. */
  predicate IsUuid(s: string) {
    |s| == 36 &&
    forall i :: 0 <= i < 36 ==>
      if i == 8 || i == 13 || i == 18 || i == 23 then s[i] == '-' else Hexadecimal(s[i])
  }

  /** An extension: its owner, the scope it asks for if it carries one, and other content. */
  datatype Extension = Extension(owner: string, association: Option<string>, otherContent: nat)

  /** A target identifier after decoding: whether its value fits its type, and what it maps to. */
  datatype Target = Target(wellFormed: bool, mapped: Option<seq<TargetIdentifier>>)

  datatype TaskDetails = TaskDetails(
    xid: string,
    targets: seq<Target>,
    deliveryType: DeliveryType,
    dids: seq<string>,
    productId: string,
    correlation: string,
    serviceTypes: nat,
    trafficPolicies: nat,
    destinationSets: nat,
    extensions: seq<Extension>)

  datatype DestinationDetails = DestinationDetails(
    did: string,
    deliveryType: DeliveryType,
    friendlyName: string,
    address: Option<string>,       // "host:port", if it is an address and a port
    extensions: seq<Extension>)

  datatype Message =
    | ActivateTask(details: Option<TaskDetails>, applicable: bool)   // what the POI's check answers
    | ModifyTask(details: Option<TaskDetails>, applicable: bool)
    | DeactivateTask(xid: string)
    | DeactivateAllTasks
    | RemoveAllDestinations
    | CreateDestination(destination: Option<DestinationDetails>)
    | GetTask(xid: string)
    | GetDestination(did: string)
    | Query                        // the requests always answered from what is held
    | Unsupported

  datatype Refusal =
    | MissingDetails | MissingXid | MissingDid
    | Malformed | Unhonourable
    | NoSuchTask | NoSuchDestination
    | NoTarget | UnmappableTarget | UnknownDeliveryType | BadCorrelation
    | Unresolved(dids: seq<string>)
    | NoX3Destination
    | Inapplicable
    | NotEnabled | DestinationsInUse
    | BadAddress | AlreadyPresent | ConfiguredAndInUse
    | UnsupportedRequest

  datatype Answer = Acknowledged | Refused(refusal: Refusal)

  datatype Reason = Withdrawal | BulkDeactivate | KeepaliveLapse

  /** What the point of interception is told. */
  datatype Event = Changed(prev: Option<Task>, next: Option<Task>) | Purged(task: Task, reason: Reason)

  datatype Config = Config(
    configured: Table,
    deactivateAllDisabled: bool,
    removeAllEnabled: bool,
    requireDids: bool,
    honoursCorrelation: bool)

  datatype State = State(tasks: map<TaskId, Task>, provisioned: Table)

  // --------------------------------------------------------------------- building a task

  const EXTENSION_OWNER := "3GPP"

  predicate ExtensionHonourable(e: Extension) {
    && e.owner == EXTENSION_OWNER
    && e.association.Some? && e.otherContent == 0
    && (e.association.value == "IdentifierAssociation" || e.association.value == "All")
  }

  predicate ExtensionsHonourable(extensions: seq<Extension>) {
    forall i :: 0 <= i < |extensions| ==> ExtensionHonourable(extensions[i])
  }

  predicate IdentifiersWellFormed(td: TaskDetails) {
    && (td.xid != "" ==> IsUuid(td.xid))
    && (td.productId != "" ==> IsUuid(td.productId))
    && (forall i :: 0 <= i < |td.dids| ==> IsUuid(td.dids[i]))
    && (forall i :: 0 <= i < |td.targets| ==> td.targets[i].wellFormed)
  }

  predicate Honourable(td: TaskDetails, honoursCorrelation: bool) {
    && (td.correlation == "" || honoursCorrelation)
    && td.serviceTypes == 0 && td.trafficPolicies == 0 && td.destinationSets == 0
    && ExtensionsHonourable(td.extensions)
  }

  /** The record scope of the first extension that carries one. */
  function Scope(extensions: seq<Extension>): RecordScope {
    if extensions == [] then Standard
    else if extensions[0].association.None? then Scope(extensions[1..])
    else if extensions[0].association.value == "IdentifierAssociation" then IdentifierAssociation
    else All
  }

  function Products(t: DeliveryType): Option<seq<Product>> {
    match t
    case X2Only => Some([IRI])
    case X3Only => Some([CC])
    case X2andX3 => Some([IRI, CC])
    case Unknown(_) => None
  }

  /** Every identifier mapped, or nothing. */
  function MapTargets(targets: seq<Target>): Option<seq<TargetIdentifier>> {
    if targets == [] then Some([])
    else
      var front := MapTargets(targets[..|targets| - 1]);
      var last := targets[|targets| - 1].mapped;
      if front.None? || last.None? then None else Some(front.value + last.value)
  }

  function Decimal(s: string): Option<nat> {
    if s == [] then Some(0)
    else
      var front, c := Decimal(s[..|s| - 1]), s[|s| - 1];
      if front.None? || !('0' <= c <= '9') then None
      else Some(10 * front.value + (c as int - '0' as int))
  }

  /** strconv.ParseUint(s, 10, 64). */
  function ParseUint64(s: string): Option<nat> {
    if s == "" then None
    else
      var n := Decimal(s);
      if n.None? || n.value > 0xFFFF_FFFF_FFFF_FFFF then None else n
  }

  predicate HasDelivery(endpoints: seq<Endpoint>, kind: Interface) {
    exists i :: 0 <= i < |endpoints| && endpoints[i].kind == kind && endpoints[i].address != ""
  }

  function TaskFrom(cfg: Config, s: State, td: TaskDetails): Result<Task, Refusal> {
    if td.xid == "" then Failure(MissingXid)
    else if td.targets == [] then Failure(NoTarget)
    else
      var targets := MapTargets(td.targets);
      var products := Products(td.deliveryType);
      if targets.None? then Failure(UnmappableTarget)
      else if products.None? then Failure(UnknownDeliveryType)
      else if td.correlation != "" && ParseUint64(td.correlation).None? then Failure(BadCorrelation)
      else
        var r := Resolve(s.provisioned, cfg.configured, td.dids);
        if r.unresolved != [] then Failure(Unresolved(r.unresolved))
        else if cfg.requireDids && CC in products.value && !HasDelivery(r.endpoints, X3) then Failure(NoX3Destination)
        else
          Success(Task(td.xid, targets.value, td.dids, products.value, r.endpoints, false, td.productId,
            if td.correlation == "" then 0 else ParseUint64(td.correlation).value, Scope(td.extensions)))
  }

  // -------------------------------------------------------------------------- the steps

  function Held(s: State, xid: TaskId): Option<Task> {
    if xid in s.tasks then Some(s.tasks[xid]) else None
  }

  predicate Referenced(tasks: map<TaskId, Task>, did: string) {
    exists xid :: xid in tasks && did in tasks[xid].dids
  }

  /** The provisioned destinations some task still names. */
  function InUse(s: State): set<string> {
    set did | did in s.provisioned && Referenced(s.tasks, did)
  }

  datatype Outcome = Outcome(state: State, answer: Answer, events: seq<Event>)

  function Refuse(s: State, r: Refusal): Outcome {
    Outcome(s, Refused(r), [])
  }

  /** Storing a task; telling the point of interception unless nothing changed. */
  function Install(s: State, task: Task): Outcome {
    var stored := task.(active := true);
    var prev := Held(s, task.xid);
    Outcome(s.(tasks := s.tasks[task.xid := stored]), Acknowledged,
      if prev == Some(stored) then [] else [Changed(prev, Some(stored))])
  }

  function Transition(cfg: Config, s: State, details: Option<TaskDetails>, isModify: bool, applicable: bool): Outcome {
    if details.None? then Refuse(s, MissingDetails)
    else if !IdentifiersWellFormed(details.value) then Refuse(s, Malformed)
    else if !Honourable(details.value, cfg.honoursCorrelation) then Refuse(s, Unhonourable)
    else if isModify && Held(s, details.value.xid).None? then Refuse(s, NoSuchTask)
    else
      match TaskFrom(cfg, s, details.value)
      case Failure(r) => Refuse(s, r)
      case Success(task) => if applicable then Install(s, task) else Refuse(s, Inapplicable)
  }

  function Removal(t: Task, reason: Reason): seq<Event> {
    [Changed(Some(t), None), Purged(t, reason)]
  }

  function Removals(tasks: seq<Task>, reason: Reason): seq<Event> {
    if tasks == [] then [] else Removals(tasks[..|tasks| - 1], reason) + Removal(tasks[|tasks| - 1], reason)
  }

  function Withdraw(s: State, xid: string): Outcome {
    if xid == "" then Refuse(s, MissingXid)
    else if !IsUuid(xid) then Refuse(s, Malformed)
    else if xid !in s.tasks then Refuse(s, NoSuchTask)
    else Outcome(s.(tasks := s.tasks - {xid}), Acknowledged, Removal(s.tasks[xid], Withdrawal))
  }

  ghost function Purge(s: State, reason: Reason): Outcome
    requires forall xid :: xid in s.tasks ==> s.tasks[xid].xid == xid
  {
    Outcome(s.(tasks := map[]), Acknowledged, Removals(Listing(s.tasks), reason))
  }

  function Provision(cfg: Config, s: State, destination: Option<DestinationDetails>): Outcome {
    if destination.None? then Refuse(s, MissingDetails)
    else
      var d := destination.value;
      if d.did == "" then Refuse(s, MissingDid)
      else if !IsUuid(d.did) then Refuse(s, Malformed)
      else if Products(d.deliveryType).None? then Refuse(s, UnknownDeliveryType)
      else if !ExtensionsHonourable(d.extensions) then Refuse(s, Unhonourable)
      else if d.address.None? then Refuse(s, BadAddress)
      else if d.did in s.provisioned then Refuse(s, AlreadyPresent)
      else if d.did in cfg.configured && Referenced(s.tasks, d.did) then Refuse(s, ConfiguredAndInUse)
      else
        Outcome(s.(provisioned := s.provisioned[d.did :=
          Destination(d.address.value, d.deliveryType, d.friendlyName, false)]), Acknowledged, [])
  }

  ghost predicate KeyedByXid(s: State) {
    forall xid :: xid in s.tasks ==> s.tasks[xid].xid == xid
  }

  /** What one message does. */
  ghost function Step(cfg: Config, s: State, m: Message): Outcome
    requires KeyedByXid(s)
  {
    match m
    case ActivateTask(details, applicable) => Transition(cfg, s, details, false, applicable)
    case ModifyTask(details, applicable) => Transition(cfg, s, details, true, applicable)
    case DeactivateTask(xid) => Withdraw(s, xid)
    case DeactivateAllTasks => if cfg.deactivateAllDisabled then Refuse(s, NotEnabled) else Purge(s, BulkDeactivate)
    case RemoveAllDestinations =>
      if !cfg.removeAllEnabled then Refuse(s, NotEnabled)
      else if InUse(s) != {} then Refuse(s, DestinationsInUse)
      else Outcome(s.(provisioned := map[]), Acknowledged, [])
    case CreateDestination(destination) => Provision(cfg, s, destination)
    case GetTask(xid) =>
      if xid in s.tasks then Outcome(s, Acknowledged, [])
      else Refuse(s, if xid == "" then MissingXid else NoSuchTask)
    case GetDestination(did) =>
      if did == "" then Refuse(s, MissingDid)
      else if Lookup(s.provisioned, cfg.configured, did).None? then Refuse(s, NoSuchDestination)
      else Outcome(s, Acknowledged, [])
    case Query => Outcome(s, Acknowledged, [])
    case Unsupported => Refuse(s, UnsupportedRequest)
  }
}
