/**
 Sequence numbers per (XID, Correlation ID) context, x2x3/sequencer.go: the calls one after
 another as an object, and the lock regions and atomic increments of concurrent calls as a
 state machine over counter objects.
 */
module Sequencer {
  import opened Wrappers
  import opened Octets
  import opened Pdu

  datatype Context = Context(xid: Xid, correlation: CorrelationId)

  function Bump(n: u32): u32 {
    if n == 0xFFFF_FFFF then 0 else n + 1
  }

  /** The number a call draws, and the counters it leaves. */
  function Draw(counters: map<Context, u32>, c: Context): (u32, map<Context, u32>) {
    if c in counters then (counters[c], counters[c := Bump(counters[c])]) else (0, counters[c := 1])
  }

  function WithoutXid(counters: map<Context, u32>, xid: Xid): map<Context, u32> {
    map c | c in counters && c.xid != xid :: counters[c]
  }

  // ------------------------------------------------------------------ one at a time

  class Numbering {
    var counters: map<Context, u32>

    constructor ()
      ensures counters == map[]
    {
      counters := map[];
    }

    method Next(xid: Xid, correlation: CorrelationId) returns (n: u32)
      modifies this
      ensures (n, counters) == Draw(old(counters), Context(xid, correlation))
    {
      var c := Context(xid, correlation);
      if c in counters {
        n := counters[c];
        counters := counters[c := Bump(n)];
      } else {
        n := 0;
        counters := counters[c := 1];
      }
    }

    method Forget(xid: Xid)
      modifies this
      ensures counters == WithoutXid(old(counters), xid)
    {
      var keys := counters.Keys;
      ghost var all := counters;
      while keys != {}
        invariant keys <= all.Keys
        invariant counters == map c | c in all && (c in keys || c.xid != xid) :: all[c]
        decreases |keys|
      {
        var c :| c in keys;
        if c.xid == xid {
          counters := counters - {c};
        }
        keys := keys - {c};
      }
    }

    method ForgetContext(xid: Xid, correlation: CorrelationId)
      modifies this
      ensures counters == old(counters) - {Context(xid, correlation)}
    {
      counters := counters - {Context(xid, correlation)};
    }
  }

  datatype Call = Next(c: Context) | Forget(xid: Xid) | ForgetContext(c: Context)

  function After(calls: seq<Call>): map<Context, u32> {
    if calls == [] then map[]
    else
      var before := After(calls[..|calls| - 1]);
      match calls[|calls| - 1]
      case Next(c) => Draw(before, c).1
      case Forget(xid) => WithoutXid(before, xid)
      case ForgetContext(c) => before - {c}
  }

  predicate Forgets(call: Call, c: Context) {
    (call.Forget? && call.xid == c.xid) || (call.ForgetContext? && call.c == c)
  }

  /** The calls of Next on c since c was last forgotten. */
  function Since(calls: seq<Call>, c: Context): nat {
    if calls == [] then 0
    else
      var last := calls[|calls| - 1];
      if Forgets(last, c) then 0
      else Since(calls[..|calls| - 1], c) + if last == Next(c) then 1 else 0
  }

  lemma {:induction false} BumpCounts(n: nat)
    ensures Bump(ToU32(n)) == ToU32(n + 1)
  {
  }

  /**
   A context's counter is the number of PDUs drawn for it since it was forgotten: Forget
   restarts exactly its XID's contexts and ForgetContext only its own.
   */
  lemma {:induction false} CountersCountSinceForgotten(calls: seq<Call>, c: Context)
    ensures c in After(calls) <==> Since(calls, c) > 0
    ensures c in After(calls) ==> After(calls)[c] == ToU32(Since(calls, c))
  {
    if calls != [] {
      var front := calls[..|calls| - 1];
      CountersCountSinceForgotten(front, c);
      BumpCounts(Since(front, c));
    }
  }

  /** The number Next returns: how many the context drew since it was last forgotten. */
  lemma {:induction false} NextDrawsCount(calls: seq<Call>, c: Context)
    ensures Draw(After(calls), c).0 == ToU32(Since(calls, c))
  {
    CountersCountSinceForgotten(calls, c);
  }

  // -------------------------------------------------------------------- concurrently

  /** A counter object: its context, its value, and the numbers drawn from it in order. */
  datatype Cell = Cell(context: Context, value: u32, drawn: seq<u32>)

  /** Where a goroutine is inside Next. */
  datatype Pc = Idle | Found(cell: nat) | Missed(c: Context)

  datatype Machine = Machine(
    cells: seq<Cell>,
    counters: map<Context, nat>,
    pcs: map<nat, Pc>,
    removed: map<Context, nat>)   // how often each context has been forgotten while held

  datatype Action =
    | Lookup(t: nat, c: Context)   // the read-locked lookup
    | Increment(t: nat)            // c.Add(1) - 1 on the object found
    | Create(t: nat)               // the write-locked second lookup, then increment or create
    | ForgetXid(xid: Xid)
    | ForgetOne(c: Context)

  function PcOf(m: Machine, t: nat): Pc {
    if t in m.pcs then m.pcs[t] else Idle
  }

  function RemovedOf(m: Machine, c: Context): nat {
    if c in m.removed then m.removed[c] else 0
  }

  /** Every reference to a counter object is to one that was made. */
  predicate Wellformed(m: Machine) {
    && (forall c :: c in m.counters ==> m.counters[c] < |m.cells|)
    && (forall t :: t in m.pcs && m.pcs[t].Found? ==> m.pcs[t].cell < |m.cells|)
  }

  predicate Enabled(m: Machine, a: Action) {
    match a
    case Lookup(t, _) => PcOf(m, t).Idle?
    case Increment(t) => PcOf(m, t).Found?
    case Create(t) => PcOf(m, t).Missed?
    case _ => true
  }

  function DrawFrom(cell: Cell): Cell {
    Cell(cell.context, Bump(cell.value), cell.drawn + [cell.value])
  }

  /** The contexts held and forgotten by a removal. */
  function Remove(m: Machine, gone: set<Context>): Machine {
    m.(counters := m.counters - gone,
       removed := m.removed + map c | c in gone && c in m.counters :: RemovedOf(m, c) + 1)
  }

  function Apply(m: Machine, a: Action): Machine
    requires Wellformed(m) && Enabled(m, a)
  {
    match a
    case Lookup(t, c) =>
      m.(pcs := m.pcs[t := if c in m.counters then Found(m.counters[c]) else Missed(c)])
    case Increment(t) =>
      var i := PcOf(m, t).cell;
      m.(cells := m.cells[i := DrawFrom(m.cells[i])], pcs := m.pcs[t := Idle])
    case Create(t) =>
      var c := PcOf(m, t).c;
      if c in m.counters then
        var i := m.counters[c];
        m.(cells := m.cells[i := DrawFrom(m.cells[i])], pcs := m.pcs[t := Idle])
      else
        m.(cells := m.cells + [Cell(c, 1, [0])], counters := m.counters[c := |m.cells|], pcs := m.pcs[t := Idle])
    case ForgetXid(xid) => Remove(m, set c | c in m.counters && c.xid == xid)
    case ForgetOne(c) => Remove(m, {c})
  }

  /** 0, 1, 2, ... as 32-bit numbers. */
  ghost predicate CountsUp(drawn: seq<u32>) {
    forall i :: 0 <= i < |drawn| ==> drawn[i] == ToU32(i)
  }

  ghost predicate CellOk(cell: Cell) {
    CountsUp(cell.drawn) && cell.value == ToU32(|cell.drawn|)
  }

  /** How many counter objects were ever made for a context. */
  function Made(cells: seq<Cell>, c: Context): nat {
    if cells == [] then 0
    else Made(cells[..|cells| - 1], c) + if cells[|cells| - 1].context == c then 1 else 0
  }

  /** A context's counter object was made for it. */
  ghost predicate Owned(m: Machine)
    requires Wellformed(m)
  {
    forall c :: c in m.counters ==> m.cells[m.counters[c]].context == c
  }

  ghost predicate Inv(m: Machine) {
    && Wellformed(m)
    && (forall i :: 0 <= i < |m.cells| ==> CellOk(m.cells[i]))
    && Owned(m)
    && (forall c: Context :: Made(m.cells, c) == RemovedOf(m, c) + if c in m.counters then 1 else 0)
  }

  lemma {:induction false} DrawKeepsCell(cell: Cell)
    requires CellOk(cell)
    ensures CellOk(DrawFrom(cell))
  {
    BumpCounts(|cell.drawn|);
  }

  lemma {:induction false} MadeAfterDraw(cells: seq<Cell>, i: nat, c: Context)
    requires i < |cells|
    ensures Made(cells[i := DrawFrom(cells[i])], c) == Made(cells, c)
  {
    var after := cells[i := DrawFrom(cells[i])];
    var n := |cells| - 1;
    if i < n {
      MadeAfterDraw(cells[..n], i, c);
      assert after[..n] == cells[..n][i := DrawFrom(cells[..n][i])];
    } else {
      assert after[..n] == cells[..n];
    }
  }

  lemma {:induction false} DrawKeeps(m: Machine, i: nat, t: nat)
    requires Inv(m) && i < |m.cells|
    ensures Inv(m.(cells := m.cells[i := DrawFrom(m.cells[i])], pcs := m.pcs[t := Idle]))
  {
    DrawKeepsCell(m.cells[i]);
    forall c: Context ensures Made(m.cells[i := DrawFrom(m.cells[i])], c) == Made(m.cells, c) {
      MadeAfterDraw(m.cells, i, c);
    }
  }

  lemma {:induction false} MakeKeeps(m: Machine, c: Context, t: nat)
    requires Inv(m) && c !in m.counters
    ensures Inv(m.(cells := m.cells + [Cell(c, 1, [0])], counters := m.counters[c := |m.cells|],
      pcs := m.pcs[t := Idle]))
  {
    var after := m.cells + [Cell(c, 1, [0])];
    assert after[..|m.cells|] == m.cells;
    forall x: Context ensures Made(after, x) == Made(m.cells, x) + if x == c then 1 else 0 {
    }
  }

  lemma {:induction false} RemoveKeeps(m: Machine, gone: set<Context>)
    requires Inv(m)
    ensures Inv(Remove(m, gone))
  {
    forall c: Context
      ensures RemovedOf(Remove(m, gone), c) == RemovedOf(m, c) + if c in gone && c in m.counters then 1 else 0
    {
    }
  }

  lemma {:induction false} StepKeeps(m: Machine, a: Action)
    requires Inv(m) && Enabled(m, a)
    ensures Inv(Apply(m, a))
  {
    match a {
      case Lookup(t, c) =>
      case Increment(t) =>
        DrawKeeps(m, PcOf(m, t).cell, t);
      case Create(t) =>
        var c := PcOf(m, t).c;
        if c in m.counters {
          DrawKeeps(m, m.counters[c], t);
        } else {
          MakeKeeps(m, c, t);
        }
      case ForgetXid(xid) =>
        RemoveKeeps(m, set c | c in m.counters && c.xid == xid);
      case ForgetOne(c) =>
        RemoveKeeps(m, {c});
    }
  }

  ghost predicate Run(m: Machine, actions: seq<Action>)
    decreases |actions|
  {
    Wellformed(m) &&
    (actions != [] ==> Enabled(m, actions[0]) && Run(Apply(m, actions[0]), actions[1..]))
  }

  ghost function Exec(m: Machine, actions: seq<Action>): Machine
    requires Run(m, actions)
    decreases |actions|
  {
    if actions == [] then m else Exec(Apply(m, actions[0]), actions[1..])
  }

  const Empty := Machine([], map[], map[], map[])

  lemma {:induction false} RunKeeps(m: Machine, actions: seq<Action>)
    requires Inv(m) && Run(m, actions)
    ensures Inv(Exec(m, actions))
    decreases |actions|
  {
    if actions != [] {
      StepKeeps(m, actions[0]);
      RunKeeps(Apply(m, actions[0]), actions[1..]);
    }
  }

  /**
   However goroutines interleave, the numbers drawn from one counter object count up from
   zero, so up to 2^32 of them are distinct; and objects are made for a context only when it
   has none, so racing creators make one between them.
   */
  lemma {:induction false} DrawnNumbersAreExact(actions: seq<Action>)
    requires Run(Empty, actions)
    ensures var m := Exec(Empty, actions);
      && (forall i :: 0 <= i < |m.cells| ==> CountsUp(m.cells[i].drawn))
      && (forall i, j, k :: 0 <= i < |m.cells| && 0 <= j < k < |m.cells[i].drawn| <= 0x1_0000_0000
            ==> m.cells[i].drawn[j] == j && m.cells[i].drawn[j] != m.cells[i].drawn[k])
      && (forall c: Context :: Made(m.cells, c) == RemovedOf(m, c) + if c in m.counters then 1 else 0)
  {
    RunKeeps(Empty, actions);
    var m := Exec(Empty, actions);
    assert forall i :: 0 <= i < |m.cells| ==> CellOk(m.cells[i]);
  }

  // ---------------------------------------------------- the two views of one call

  ghost function Values(m: Machine): map<Context, u32>
    requires Wellformed(m)
  {
    map c | c in m.counters :: m.cells[m.counters[c]].value
  }

  /** The number a call has just drawn from the object it ended on. */
  ghost function LastDrawn(m: Machine, c: Context): Option<u32>
    requires Wellformed(m)
  {
    if c in m.counters && m.cells[m.counters[c]].drawn != [] then
      var drawn := m.cells[m.counters[c]].drawn;
      Some(drawn[|drawn| - 1])
    else None
  }

  /** One draw from a context's object is one draw of that context and of no other. */
  lemma {:induction false} IncrementValues(m: Machine, c: Context, after: Machine)
    requires Wellformed(m) && Owned(m) && c in m.counters
    requires Wellformed(after) && after.counters == m.counters
    requires after.cells == m.cells[m.counters[c] := DrawFrom(m.cells[m.counters[c]])]
    ensures Values(after) == Draw(Values(m), c).1
    ensures LastDrawn(after, c) == Some(Draw(Values(m), c).0)
  {
    forall x | x in m.counters && x != c ensures m.counters[x] != m.counters[c] {
      assert m.cells[m.counters[x]].context == x;
    }
  }

  lemma {:induction false} MakeValues(m: Machine, c: Context, after: Machine)
    requires Wellformed(m) && c !in m.counters
    requires Wellformed(after) && after.counters == m.counters[c := |m.cells|]
    requires after.cells == m.cells + [Cell(c, 1, [0])]
    ensures Values(after) == Draw(Values(m), c).1
    ensures LastDrawn(after, c) == Some(Draw(Values(m), c).0)
  {
  }

  lemma {:induction false} LookupKeepsValues(m: Machine, t: nat, c: Context)
    requires Inv(m) && PcOf(m, t).Idle?
    ensures var found := Apply(m, Lookup(t, c));
      && Inv(found) && found.cells == m.cells && found.counters == m.counters && Values(found) == Values(m)
      && PcOf(found, t) == if c in m.counters then Found(m.counters[c]) else Missed(c)
  {
    StepKeeps(m, Lookup(t, c));
  }

  /** A call that meets no other draws what the object's Next draws and leaves what it leaves. */
  lemma {:induction false} UninterruptedCallIsNext(m: Machine, found: Machine, t: nat, c: Context)
    requires Inv(m) && PcOf(m, t).Idle? && found == Apply(m, Lookup(t, c))
    ensures Wellformed(found)
    ensures c in m.counters ==>
      && Enabled(found, Increment(t)) && Wellformed(Apply(found, Increment(t)))
      && Values(Apply(found, Increment(t))) == Draw(Values(m), c).1
      && LastDrawn(Apply(found, Increment(t)), c) == Some(Draw(Values(m), c).0)
    ensures c !in m.counters ==>
      && Enabled(found, Create(t)) && Wellformed(Apply(found, Create(t)))
      && Values(Apply(found, Create(t))) == Draw(Values(m), c).1
      && LastDrawn(Apply(found, Create(t)), c) == Some(Draw(Values(m), c).0)
  {
    LookupKeepsValues(m, t, c);
    if c in m.counters {
      IncrementValues(found, c, Apply(found, Increment(t)));
    } else {
      MakeValues(found, c, Apply(found, Create(t)));
    }
  }

  /** Forgetting lets go of exactly the contexts of one XID, or of one context, and touches no counter. */
  lemma {:induction false} ForgettingLetsGo(m: Machine, xid: Xid, c: Context)
    requires Inv(m)
    ensures var after := Apply(m, ForgetXid(xid));
      && after.cells == m.cells && after.pcs == m.pcs
      && forall x :: x in after.counters <==> x in m.counters && x.xid != xid
    ensures forall x :: x in m.counters && x.xid != xid ==> Apply(m, ForgetXid(xid)).counters[x] == m.counters[x]
    ensures var after := Apply(m, ForgetOne(c));
      after.cells == m.cells && after.pcs == m.pcs && after.counters == m.counters - {c}
  {
  }

  /** A counter made is made for one context, starts there, and has given out zero. */
  lemma {:induction false} CreatingStartsAtZero(m: Machine, t: nat)
    requires Inv(m) && PcOf(m, t).Missed? && PcOf(m, t).c !in m.counters
    ensures var after, c := Apply(m, Create(t)), PcOf(m, t).c;
      && after.cells == m.cells + [Cell(c, 1, [0])] && c in after.counters && after.counters[c] == |m.cells|
      && PcOf(after, t).Idle? && after.counters - {c} == m.counters
  {
  }
}
