/** The active tasks and their index by target identifier, store/store.go. */
module TaskStore {
  import opened Wrappers
  import opened Types

  // ---------------------------------------------------------------------- XID order

  /** strings.Compare(a, b) < 0. */
  predicate Before(a: string, b: string) {
    if b == [] then false
    else if a == [] then true
    else if a[0] == b[0] then Before(a[1..], b[1..])
    else a[0] < b[0]
  }

  lemma {:induction false} BeforeIsTotal(a: string, b: string)
    ensures a == b || Before(a, b) || Before(b, a)
    ensures !(Before(a, b) && Before(b, a))
    ensures Before(a, b) ==> a != b
  {
    if a != [] && b != [] {
      BeforeIsTotal(a[1..], b[1..]);
      if a[0] == b[0] && a[1..] == b[1..] {
        assert a == [a[0]] + a[1..] == b;
      }
    }
  }

  /** Where two strings first differ: at a smaller character, or where the first ends. */
  ghost predicate FirstDifference(a: string, b: string, k: nat) {
    && k <= |a| && k < |b| && a[..k] == b[..k] && (k == |a| || a[k] < b[k])
  }

  lemma {:induction false} StartAlike(a: string, b: string, k: nat)
    requires 0 < k <= |a| && k <= |b| && a[..k] == b[..k]
    ensures a[0] == b[0]
  {
    assert a[0] == a[..k][0] == b[..k][0];
  }

  /** Lexicographic order. */
  lemma {:induction false} BeforeIsLexicographic(a: string, b: string)
    ensures Before(a, b) <==> exists k: nat :: FirstDifference(a, b, k)
  {
    if a == [] || b == [] || a[0] != b[0] {
      if Before(a, b) {
        assert FirstDifference(a, b, 0);
      }
      if k: nat :| FirstDifference(a, b, k) && k > 0 {
        StartAlike(a, b, k);
      }
    } else {
      BeforeIsLexicographic(a[1..], b[1..]);
      if k: nat :| FirstDifference(a[1..], b[1..], k) {
        assert a[..k + 1] == [a[0]] + a[1..][..k] && b[..k + 1] == [b[0]] + b[1..][..k];
        assert FirstDifference(a, b, k + 1);
      }
      if k: nat :| FirstDifference(a, b, k) {
        assert k > 0;
        assert a[1..][..k - 1] == a[..k][1..] && b[1..][..k - 1] == b[..k][1..];
        assert FirstDifference(a[1..], b[1..], k - 1);
      }
    }
  }

  lemma {:induction false} BeforeIsTransitive(a: string, b: string, c: string)
    requires Before(a, b) && Before(b, c)
    ensures Before(a, c)
  {
    if a != [] && a[0] == b[0] && b[0] == c[0] {
      BeforeIsTransitive(a[1..], b[1..], c[1..]);
    }
  }

  ghost predicate Sorted(tasks: seq<Task>) {
    forall i, j :: 0 <= i < j < |tasks| ==> Before(tasks[i].xid, tasks[j].xid)
  }

  ghost predicate SameTasks(a: seq<Task>, b: seq<Task>) {
    forall t :: t in a <==> t in b
  }

  /** No two of them share an XID. */
  ghost predicate DistinctXids(tasks: seq<Task>) {
    forall i, j :: 0 <= i < j < |tasks| ==> tasks[i].xid != tasks[j].xid
  }

  lemma {:induction false} SortedAround(low: seq<Task>, t: Task, high: seq<Task>)
    requires Sorted(low + high)
    requires forall i :: 0 <= i < |low| ==> Before(low[i].xid, t.xid)
    requires forall i :: 0 <= i < |high| ==> Before(t.xid, high[i].xid)
    ensures Sorted(low + [t] + high) && SameTasks(low + [t] + high, low + high + [t])
  {
    var out := low + [t] + high;
    forall i, j | 0 <= i < j < |out| ensures Before(out[i].xid, out[j].xid) {
      var all := low + high;
      if i != |low| && j != |low| {
        assert out[i] == all[if i < |low| then i else i - 1] && out[j] == all[if j < |low| then j else j - 1];
      }
    }
  }

  lemma {:induction false} InsertAt(sorted: seq<Task>, k: nat, t: Task)
    requires Sorted(sorted) && k <= |sorted|
    requires forall i :: k <= i < |sorted| ==> Before(t.xid, sorted[i].xid)
    requires k > 0 ==> sorted[k - 1].xid != t.xid && !Before(t.xid, sorted[k - 1].xid)
    ensures var out := sorted[..k] + [t] + sorted[k..]; Sorted(out) && SameTasks(out, sorted + [t])
  {
    forall i | 0 <= i < k ensures Before(sorted[i].xid, t.xid) {
      BeforeIsTotal(sorted[k - 1].xid, t.xid);
      if i < k - 1 {
        BeforeIsTransitive(sorted[i].xid, sorted[k - 1].xid, t.xid);
      }
    }
    SortedAround(sorted[..k], t, sorted[k..]);
    assert sorted == sorted[..k] + sorted[k..];
  }

  method Insert(sorted: seq<Task>, t: Task) returns (out: seq<Task>)
    requires Sorted(sorted)
    requires forall i :: 0 <= i < |sorted| ==> sorted[i].xid != t.xid
    ensures Sorted(out) && SameTasks(out, sorted + [t])
  {
    var k := |sorted|;
    while k > 0 && Before(t.xid, sorted[k - 1].xid)
      invariant 0 <= k <= |sorted|
      invariant forall i :: k <= i < |sorted| ==> Before(t.xid, sorted[i].xid)
    {
      k := k - 1;
    }
    InsertAt(sorted, k, t);
    out := sorted[..k] + [t] + sorted[k..];
  }

  method SortByXid(tasks: seq<Task>) returns (out: seq<Task>)
    requires DistinctXids(tasks)
    ensures Sorted(out) && SameTasks(out, tasks)
  {
    out := [];
    for k := 0 to |tasks|
      invariant Sorted(out) && SameTasks(out, tasks[..k])
    {
      forall i | 0 <= i < |out| ensures out[i].xid != tasks[k].xid {
        assert out[i] in tasks[..k];
      }
      var front := out;
      out := Insert(front, tasks[k]);
      assert tasks[..k + 1] == tasks[..k] + [tasks[k]];
    }
    assert tasks[..|tasks|] == tasks;
  }

  /** Sorted lists of the same tasks are the same list, whatever order they were gathered in. */
  lemma {:induction false} SortedIsUnique(a: seq<Task>, b: seq<Task>)
    requires Sorted(a) && Sorted(b) && SameTasks(a, b)
    ensures a == b
  {
    if a == [] {
      if b != [] {
        NonEmptyTogether(b, a);
      }
    } else {
      NonEmptyTogether(a, b);
      var m, n := |a| - 1, |b| - 1;
      LastIsGreatest(a, b);
      forall t ensures t in a[..m] <==> t in b[..n] {
        DropLast(a, t);
        DropLast(b, t);
      }
      SortedIsUnique(a[..m], b[..n]);
      assert a == a[..m] + [a[m]] && b == b[..n] + [b[n]];
    }
  }

  lemma {:induction false} NonEmptyTogether(a: seq<Task>, b: seq<Task>)
    requires SameTasks(a, b) && a != []
    ensures b != []
  {
    assert a[0] in b;
  }

  lemma {:induction false} LastIsGreatest(a: seq<Task>, b: seq<Task>)
    requires Sorted(a) && Sorted(b) && SameTasks(a, b) && a != [] && b != []
    ensures a[|a| - 1] == b[|b| - 1]
  {
    var x, y := a[|a| - 1], b[|b| - 1];
    assert x in b && y in a;
    BeforeIsTotal(x.xid, y.xid);
  }

  lemma {:induction false} DropLast(a: seq<Task>, t: Task)
    requires Sorted(a) && a != []
    ensures t in a[..|a| - 1] <==> t in a && t != a[|a| - 1]
  {
    var m := |a| - 1;
    assert a == a[..m] + [a[m]];
    if a[m] in a[..m] {
      var i :| 0 <= i < m && a[i] == a[m];
      BeforeIsTotal(a[i].xid, a[m].xid);
    }
  }

  // ------------------------------------------------------------------------- the index

  /** The XIDs of the tasks that name an identifier. */
  function Naming(tasks: map<TaskId, Task>, id: TargetIdentifier): set<TaskId> {
    set xid | xid in tasks && id in tasks[xid].targets
  }

  type Index = map<TargetIdentifier, set<TaskId>>

  function At(index: Index, id: TargetIdentifier): set<TaskId> {
    if id in index then index[id] else {}
  }

  ghost predicate NoEmptySets(index: Index) {
    forall id :: id in index ==> index[id] != {}
  }

  /** The index holds exactly the tasks that name each identifier, and no empty set. */
  ghost predicate Indexes(index: Index, tasks: map<TaskId, Task>) {
    NoEmptySets(index) && forall id :: At(index, id) == Naming(tasks, id)
  }

  ghost predicate Keyed(tasks: map<TaskId, Task>) {
    forall xid :: xid in tasks ==> xid != "" && tasks[xid].xid == xid && tasks[xid].active
  }

  /** The tasks of a map, in XID order. */
  ghost predicate Lists(out: seq<Task>, tasks: map<TaskId, Task>) {
    Sorted(out) && forall t :: t in out <==> t.xid in tasks && tasks[t.xid] == t
  }

  lemma {:induction false} Slot(sorted: seq<Task>, t: Task) returns (k: nat)
    requires Sorted(sorted)
    requires forall i :: 0 <= i < |sorted| ==> sorted[i].xid != t.xid
    ensures k <= |sorted|
    ensures forall i :: k <= i < |sorted| ==> Before(t.xid, sorted[i].xid)
    ensures k > 0 ==> !Before(t.xid, sorted[k - 1].xid)
  {
    k := |sorted|;
    while k > 0 && Before(t.xid, sorted[k - 1].xid)
      invariant 0 <= k <= |sorted|
      invariant forall i :: k <= i < |sorted| ==> Before(t.xid, sorted[i].xid)
    {
      k := k - 1;
    }
  }

  lemma {:induction false} ListsWithOneMore(front: seq<Task>, out: seq<Task>, tasks: map<TaskId, Task>, xid: TaskId)
    requires xid in tasks && tasks[xid].xid == xid
    requires Lists(front, tasks - {xid}) && Sorted(out) && SameTasks(out, front + [tasks[xid]])
    ensures Lists(out, tasks)
  {
    forall t: Task ensures t in out <==> t.xid in tasks && tasks[t.xid] == t {
      assert t in out <==> t in front || t == tasks[xid];
      assert t in front <==> t.xid in tasks - {xid} && (tasks - {xid})[t.xid] == t;
    }
  }

  lemma {:induction false} InsertLists(front: seq<Task>, tasks: map<TaskId, Task>, xid: TaskId) returns (out: seq<Task>)
    requires xid in tasks && tasks[xid].xid == xid && Lists(front, tasks - {xid})
    ensures Lists(out, tasks)
  {
    forall i | 0 <= i < |front| ensures front[i].xid != xid {
      assert front[i] in front;
    }
    var k := Slot(front, tasks[xid]);
    InsertAt(front, k, tasks[xid]);
    out := front[..k] + [tasks[xid]] + front[k..];
    ListsWithOneMore(front, out, tasks, xid);
  }

  lemma {:induction false} ListingExists(tasks: map<TaskId, Task>)
    requires forall xid :: xid in tasks ==> tasks[xid].xid == xid
    ensures exists out :: Lists(out, tasks)
    decreases |tasks|
  {
    if tasks == map[] {
      assert Lists([], tasks);
    } else {
      var xid :| xid in tasks;
      assert (tasks - {xid}).Keys == tasks.Keys - {xid};
      ListingExists(tasks - {xid});
      var front: seq<Task> :| Lists(front, tasks - {xid});
      var out := InsertLists(front, tasks, xid);
    }
  }

  /** The tasks in XID order: the one list Snapshot can answer with. */
  ghost function Listing(tasks: map<TaskId, Task>): (out: seq<Task>)
    requires forall xid :: xid in tasks ==> tasks[xid].xid == xid
    ensures Lists(out, tasks)
  {
    ListingExists(tasks);
    var out: seq<Task> :| Lists(out, tasks);
    out
  }

  lemma {:induction false} ListingIsUnique(out: seq<Task>, tasks: map<TaskId, Task>)
    requires Keyed(tasks) && Lists(out, tasks)
    ensures out == Listing(tasks)
  {
    SortedIsUnique(out, Listing(tasks));
  }

  function Add(index: Index, id: TargetIdentifier, xid: TaskId): Index {
    index[id := At(index, id) + {xid}]
  }

  function Drop(index: Index, id: TargetIdentifier, xid: TaskId): Index {
    if id !in index then index
    else if index[id] - {xid} == {} then index - {id}
    else index[id := index[id] - {xid}]
  }

  /** The entries for xid, and those alone, added under the identifiers in done. */
  ghost predicate Grown(before: Index, after: Index, done: seq<TargetIdentifier>, xid: TaskId) {
    NoEmptySets(after) && forall id :: At(after, id) == At(before, id) + (if id in done then {xid} else {})
  }

  /** The entries for xid, and those alone, removed under the identifiers in done. */
  ghost predicate Shrunk(before: Index, after: Index, done: seq<TargetIdentifier>, xid: TaskId) {
    NoEmptySets(after) && forall id :: At(after, id) == At(before, id) - (if id in done then {xid} else {})
  }

  lemma {:induction false} AddGrows(before: Index, index: Index, done: seq<TargetIdentifier>, id: TargetIdentifier,
      xid: TaskId)
    requires Grown(before, index, done, xid)
    ensures Grown(before, Add(index, id, xid), done + [id], xid)
  {
    forall j ensures At(Add(index, id, xid), j) == At(before, j) + (if j in done + [id] then {xid} else {}) {
      assert At(Add(index, id, xid), j) == At(index, j) + if j == id then {xid} else {};
    }
  }

  lemma {:induction false} DropShrinks(before: Index, index: Index, done: seq<TargetIdentifier>,
      id: TargetIdentifier, xid: TaskId)
    requires Shrunk(before, index, done, xid)
    ensures Shrunk(before, Drop(index, id, xid), done + [id], xid)
  {
    forall j ensures At(Drop(index, id, xid), j) == At(before, j) - (if j in done + [id] then {xid} else {}) {
      assert At(Drop(index, id, xid), j) == At(index, j) - if j == id then {xid} else {};
    }
  }

  lemma {:induction false} ShrunkIndexes(tasks: map<TaskId, Task>, index: Index, after: Index, xid: TaskId)
    requires Indexes(index, tasks) && xid in tasks && Shrunk(index, after, tasks[xid].targets, xid)
    ensures Indexes(after, tasks - {xid})
  {
    forall id ensures At(after, id) == Naming(tasks - {xid}, id) {
      assert At(index, id) == Naming(tasks, id);
    }
  }

  lemma {:induction false} GrownIndexes(tasks: map<TaskId, Task>, index: Index, after: Index, t: Task)
    requires Indexes(index, tasks) && t.xid !in tasks && Grown(index, after, t.targets, t.xid)
    ensures Indexes(after, tasks[t.xid := t])
  {
    forall id ensures At(after, id) == Naming(tasks[t.xid := t], id) {
      assert At(index, id) == Naming(tasks, id);
    }
  }

  method Unindexed(tasks: map<TaskId, Task>, index: Index, xid: TaskId) returns (after: Index)
    requires Indexes(index, tasks)
    ensures Indexes(after, tasks - {xid})
  {
    after := index;
    if xid !in tasks {
      assert tasks - {xid} == tasks;
      return;
    }
    var targets := tasks[xid].targets;
    for k := 0 to |targets|
      invariant Shrunk(index, after, targets[..k], xid)
    {
      DropShrinks(index, after, targets[..k], targets[k], xid);
      assert targets[..k + 1] == targets[..k] + [targets[k]];
      after := Drop(after, targets[k], xid);
    }
    assert targets[..|targets|] == targets;
    ShrunkIndexes(tasks, index, after, xid);
  }

  method Indexed(tasks: map<TaskId, Task>, index: Index, t: Task) returns (after: Index)
    requires Indexes(index, tasks) && t.xid !in tasks
    ensures Indexes(after, tasks[t.xid := t])
  {
    after := index;
    for k := 0 to |t.targets|
      invariant Grown(index, after, t.targets[..k], t.xid)
    {
      AddGrows(index, after, t.targets[..k], t.targets[k], t.xid);
      assert t.targets[..k + 1] == t.targets[..k] + [t.targets[k]];
      after := Add(after, t.targets[k], t.xid);
    }
    assert t.targets[..|t.targets|] == t.targets;
    GrownIndexes(tasks, index, after, t);
  }

  /** The tasks of a set of XIDs, gathered in any order and then sorted. */
  method Gather(tasks: map<TaskId, Task>, xids: set<TaskId>) returns (out: seq<Task>)
    requires Keyed(tasks) && xids <= tasks.Keys
    ensures Sorted(out)
    ensures forall t :: t in out <==> t.xid in xids && tasks[t.xid] == t
  {
    var left, found := xids, [];
    while left != {}
      invariant left <= xids
      invariant DistinctXids(found)
      invariant forall t :: t in found <==> t.xid in xids - left && tasks[t.xid] == t
      decreases |left|
    {
      var xid :| xid in left;
      found := found + [tasks[xid]];
      left := left - {xid};
    }
    out := SortByXid(found);
  }

  class Store {
    var byXid: map<TaskId, Task>
    var byTarget: Index

    ghost predicate Valid()
      reads this
    {
      Keyed(byXid) && Indexes(byTarget, byXid)
    }

    constructor ()
      ensures Valid() && byXid == map[]
    {
      byXid, byTarget := map[], map[];
    }

    /** Adds or replaces a task, whatever it named before. */
    method Activate(task: Task) returns (ok: bool)
      requires Valid()
      modifies this
      ensures Valid()
      ensures ok <==> task.xid != ""
      ensures byXid == if ok then old(byXid)[task.xid := task.(active := true)] else old(byXid)
    {
      if task.xid == "" {
        return false;
      }
      var stored := task.(active := true);
      var index := Unindexed(byXid, byTarget, task.xid);
      index := Indexed(byXid - {task.xid}, index, stored);
      assert (byXid - {task.xid})[task.xid := stored] == byXid[task.xid := stored];
      byXid, byTarget := byXid[task.xid := stored], index;
      ok := true;
    }

    method Deactivate(xid: TaskId) returns (existed: bool)
      requires Valid()
      modifies this
      ensures Valid()
      ensures existed <==> xid in old(byXid)
      ensures byXid == old(byXid) - {xid}
    {
      if xid !in byXid {
        assert byXid - {xid} == byXid;
        return false;
      }
      byTarget := Unindexed(byXid, byTarget, xid);
      byXid := byXid - {xid};
      existed := true;
    }

    method DeactivateAll()
      requires Valid()
      modifies this
      ensures Valid() && byXid == map[]
    {
      byXid, byTarget := map[], map[];
    }

    method Get(xid: TaskId) returns (t: Option<Task>)
      ensures t == if xid in byXid then Some(byXid[xid]) else None
    {
      t := if xid in byXid then Some(byXid[xid]) else None;
    }

    /** Every task, in XID order. */
    method Snapshot() returns (out: seq<Task>)
      requires Valid()
      ensures out == Listing(byXid)
    {
      out := Gather(byXid, byXid.Keys);
      ListingIsUnique(out, byXid);
    }

    /** The tasks naming an identifier, in XID order, each once. */
    method Match(id: TargetIdentifier) returns (out: seq<Task>)
      requires Valid()
      ensures Sorted(out)
      ensures forall t :: t in out <==> t.xid in byXid && byXid[t.xid] == t && id in t.targets
    {
      assert At(byTarget, id) == Naming(byXid, id);
      if id !in byTarget {
        forall t: Task | t.xid in byXid && byXid[t.xid] == t ensures id !in t.targets {
          assert t.xid !in Naming(byXid, id);
        }
        return [];
      }
      out := Gather(byXid, byTarget[id]);
    }
  }

  // --------------------------------------------------------- runs of store operations

  datatype Op = Put(task: Task) | Remove(xid: TaskId) | RemoveAll

  function Apply(tasks: map<TaskId, Task>, op: Op): map<TaskId, Task> {
    match op
    case Put(t) => if t.xid == "" then tasks else tasks[t.xid := t.(active := true)]
    case Remove(xid) => tasks - {xid}
    case RemoveAll => map[]
  }

  function ApplyAll(ops: seq<Op>): map<TaskId, Task> {
    if ops == [] then map[] else Apply(ApplyAll(ops[..|ops| - 1]), ops[|ops| - 1])
  }

  /**
   After any sequence of operations on a new store the index is exact, and what a look-up
   answers depends on the operations alone.
   */
  method RunOperations(ops: seq<Op>, id: TargetIdentifier) returns (s: Store, out: seq<Task>)
    ensures s.Valid() && s.byXid == ApplyAll(ops)
    ensures Sorted(out)
    ensures forall t :: t in out <==> t.xid in ApplyAll(ops) && ApplyAll(ops)[t.xid] == t && id in t.targets
  {
    s := new Store();
    for k := 0 to |ops|
      invariant fresh(s) && s.Valid() && s.byXid == ApplyAll(ops[..k])
    {
      assert ops[..k + 1][..k] == ops[..k];
      match ops[k]
      case Put(t) => var _ := s.Activate(t);
      case Remove(xid) => var _ := s.Deactivate(xid);
      case RemoveAll => s.DeactivateAll();
    }
    assert ops[..|ops|] == ops;
    out := s.Match(id);
  }
}
