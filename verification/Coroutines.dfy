/** The coroutine scheduler.  A context switch is written out as the two halves of
    ResumeCoroutine with the coroutine's own segment between them, which ends either in
    YieldCoroutine or at the end of ScheduleFunction. */
module Coroutines {
  datatype CoState = Ready | Running | Suspend | Done

  datatype Ctx<A> = Ctx(state: CoState, arg: A)

  /** coroutine_table_, running_cid_, coroutine_max_ and cid_seed. */
  datatype Sched<A> = Sched(table: map<int, Ctx<A>>, running: int, max: nat, seed: nat)

  function Start<A>(max: nat): Sched<A> {
    Sched(map[], -1, max, 0)
  }

  function Create<A>(s: Sched<A>, arg: A): (r: (Sched<A>, int)) {
    if |s.table| >= s.max then (s, -2 as int)
    else (s.(table := s.table[s.seed := Ctx(Ready, arg)], seed := s.seed + 1), s.seed as int)
  }

  function Destroy<A>(s: Sched<A>, id: int): Sched<A> {
    s.(table := s.table - {id})
  }

  function BeenAlive<A>(s: Sched<A>, id: int): bool {
    id in s.table && s.table[id].state != Done
  }

  /** ResumeCoroutine up to the switch; whether it switches at all. */
  function SwitchIn<A>(s: Sched<A>, id: int): (r: (Sched<A>, bool))
    requires id in s.table ==> s.table[id].state != Done
  {
    if id in s.table && (s.table[id].state == Ready || s.table[id].state == Suspend) then
      (s.(table := s.table[id := s.table[id].(state := Running)], running := id), true)
    else (s, false)
  }

  /** YieldCoroutine, up to the switch back. */
  function Yield<A>(s: Sched<A>): Sched<A> {
    if s.running < 0 || s.running !in s.table then s
    else s.(table := s.table[s.running := s.table[s.running].(state := Suspend)], running := -1)
  }

  /** The end of ScheduleFunction. */
  function Finish<A>(s: Sched<A>): Sched<A>
    requires s.running in s.table
  {
    s.(table := s.table[s.running := s.table[s.running].(state := Done)], running := -1)
  }

  /** ResumeCoroutine after the switch back. */
  function AfterSwap<A>(s: Sched<A>, id: int): Sched<A> {
    if id in s.table && s.table[id].state == Done then Destroy(s, id) else s
  }

  // ---------- invariants ----------

  ghost predicate Bounded<A>(s: Sched<A>) {
    |s.table| <= s.max && forall id :: id in s.table ==> 0 <= id < s.seed
  }

  /** In the main context nothing runs and nothing finished is left over. */
  ghost predicate InMain<A>(s: Sched<A>) {
    && Bounded(s)
    && s.running == -1
    && forall id :: id in s.table ==> s.table[id].state in {Ready, Suspend}
  }

  /** In a coroutine exactly that one runs. */
  ghost predicate InCoroutine<A>(s: Sched<A>, id: int) {
    && Bounded(s)
    && s.running == id && id in s.table && s.table[id].state == Running
    && forall other :: other in s.table && other != id ==> s.table[other].state in {Ready, Suspend}
  }

  lemma SameSize<A>(m: map<int, Ctx<A>>, id: int, c: Ctx<A>)
    requires id in m
    ensures |m[id := c]| == |m|
  {
    assert m[id := c].Keys == m.Keys;
    assert |m[id := c]| == |m[id := c].Keys| && |m| == |m.Keys|;
  }

  lemma OneMore<A>(m: map<int, Ctx<A>>, id: int, c: Ctx<A>)
    requires id !in m
    ensures |m[id := c]| == |m| + 1
  {
    assert m[id := c].Keys == m.Keys + {id};
    assert |m[id := c]| == |m[id := c].Keys| && |m| == |m.Keys|;
  }

  lemma OneFewer<A>(m: map<int, Ctx<A>>, id: int)
    ensures |m - {id}| == if id in m then |m| - 1 else |m|
  {
    assert (m - {id}).Keys == m.Keys - {id};
    assert |m - {id}| == |(m - {id}).Keys| && |m| == |m.Keys|;
    if id !in m {
      assert m - {id} == m;
    }
  }

  /** A new coroutine gets a number no coroutine ever had. */
  lemma CreateKeepsMain<A>(s: Sched<A>, arg: A)
    requires InMain(s)
    ensures InMain(Create(s, arg).0)
    ensures |s.table| < s.max ==> Create(s, arg).1 == s.seed && s.seed !in s.table && |Create(s, arg).0.table| == |s.table| + 1
  {
    if |s.table| < s.max {
      assert s.seed !in s.table;
      OneMore(s.table, s.seed, Ctx(Ready, arg));
    }
  }

  lemma DestroyKeepsMain<A>(s: Sched<A>, id: int)
    requires InMain(s)
    ensures InMain(Destroy(s, id))
  {
    OneFewer(s.table, id);
  }

  /** From the main context a known coroutine always takes over. */
  lemma SwitchInRuns<A>(s: Sched<A>, id: int)
    requires InMain(s) && id in s.table
    ensures SwitchIn(s, id).1 && InCoroutine(SwitchIn(s, id).0, id)
    ensures SwitchIn(s, id).0.table.Keys == s.table.Keys
  {
    SameSize(s.table, id, s.table[id].(state := Running));
  }

  /** Yielding leaves it suspended in the table and comes back to the main context. */
  lemma YieldReturns<A>(s: Sched<A>, id: int)
    requires InCoroutine(s, id)
    ensures InMain(AfterSwap(Yield(s), id)) && AfterSwap(Yield(s), id) == Yield(s)
    ensures Yield(s).table == s.table[id := s.table[id].(state := Suspend)]
  {
    SameSize(s.table, id, s.table[id].(state := Suspend));
  }

  /** Finishing takes it out of the table and comes back to the main context. */
  lemma FinishReturns<A>(s: Sched<A>, id: int)
    requires InCoroutine(s, id)
    ensures InMain(AfterSwap(Finish(s), id))
    ensures AfterSwap(Finish(s), id).table == s.table - {id}
  {
    SameSize(s.table, id, s.table[id].(state := Done));
    OneFewer(Finish(s).table, id);
    assert Finish(s).table - {id} == s.table - {id};
  }

  // ---------- what a coroutine does while it runs ----------

  /** A running coroutine may create coroutines and destroy others without giving up control. */
  datatype Inner<A> = Spawn(arg: A) | Kill(id: int)

  function InnerStep<A>(s: Sched<A>, i: Inner<A>): Sched<A> {
    match i
    case Spawn(arg) => Create(s, arg).0
    case Kill(id) => Destroy(s, id)
  }

  function Segment<A>(s: Sched<A>, inner: seq<Inner<A>>): Sched<A>
    decreases |inner|
  {
    if inner == [] then s else Segment(InnerStep(s, inner[0]), inner[1..])
  }

  lemma InnerKeepsRunning<A>(s: Sched<A>, id: int, i: Inner<A>)
    requires InCoroutine(s, id) && i != Kill(id)
    ensures var r := InnerStep(s, i);
      && InCoroutine(r, id) && r.seed >= s.seed && r.max == s.max
      && forall x :: x in r.table && x !in s.table ==> x >= s.seed
  {
    match i
    case Spawn(arg) =>
      if |s.table| < s.max {
        assert s.seed !in s.table;
        OneMore(s.table, s.seed, Ctx(Ready, arg));
      }
    case Kill(x) => OneFewer(s.table, x);
  }

  /** All it does keeps it the one coroutine that runs. */
  lemma {:induction false} SegmentKeepsRunning<A>(s: Sched<A>, id: int, inner: seq<Inner<A>>)
    requires InCoroutine(s, id) && Kill(id) !in inner
    ensures var r := Segment(s, inner);
      && InCoroutine(r, id) && r.seed >= s.seed && r.max == s.max
      && forall x :: x in r.table && x !in s.table ==> x >= s.seed
    decreases |inner|
  {
    if inner != [] {
      InnerKeepsRunning(s, id, inner[0]);
      SegmentKeepsRunning(InnerStep(s, inner[0]), id, inner[1..]);
    }
  }

  // ---------- any run without nested resumes ----------

  /** What the main context can do; a coroutine it resumes does something of its own and gives
      control back by pausing or finishing. */
  datatype Op<A> = CreateOp(arg: A) | DestroyOp(id: int) | ResumeOp(id: int, inner: seq<Inner<A>>, pauses: bool)

  /** No coroutine destroys itself: it would free the stack it is running on. */
  predicate Sane<A(==)>(op: Op<A>) {
    op.ResumeOp? ==> Kill(op.id) !in op.inner
  }

  function Apply<A>(s: Sched<A>, op: Op<A>): Sched<A>
    requires InMain(s) && Sane(op)
  {
    match op
    case CreateOp(arg) => Create(s, arg).0
    case DestroyOp(id) => Destroy(s, id)
    case ResumeOp(id, inner, pauses) =>
      var (t, switched) := SwitchIn(s, id);
      if !switched then s
      else
        SwitchInRuns(s, id);
        SegmentKeepsRunning(t, id, inner);
        var u := Segment(t, inner);
        AfterSwap(if pauses then Yield(u) else Finish(u), id)
  }

  lemma ApplyKeepsMain<A>(s: Sched<A>, op: Op<A>)
    requires InMain(s) && Sane(op)
    ensures InMain(Apply(s, op)) && Apply(s, op).seed >= s.seed && Apply(s, op).max == s.max
    ensures forall id :: id in Apply(s, op).table && id !in s.table ==> id >= s.seed
  {
    match op
    case CreateOp(arg) => CreateKeepsMain(s, arg);
    case DestroyOp(id) => DestroyKeepsMain(s, id);
    case ResumeOp(id, inner, pauses) =>
      if id in s.table {
        SwitchInRuns(s, id);
        var t := SwitchIn(s, id).0;
        SegmentKeepsRunning(t, id, inner);
        YieldReturns(Segment(t, inner), id);
        FinishReturns(Segment(t, inner), id);
      }
  }

  /** s leads to r by some run: the relation every property of whole runs is stated over. */
  ghost predicate Reaches<A(!new)>(s: Sched<A>, ops: seq<Op<A>>, r: Sched<A>)
    requires InMain(s)
    decreases |ops|
  {
    if ops == [] then r == s
    else
      Sane(ops[0]) &&
      (ApplyKeepsMain(s, ops[0]);
       Reaches(Apply(s, ops[0]), ops[1..], r))
  }

  /** In every reachable state the main context is quiet, the table is within its limit, and no
      number is ever given twice, whatever the coroutines create and destroy while they run; in
      particular the assert(0) of ResumeCoroutine, a finished coroutine resumed, is never met. */
  lemma {:induction false} RunsStayInMain<A(!new)>(s: Sched<A>, ops: seq<Op<A>>, r: Sched<A>)
    requires InMain(s) && Reaches(s, ops, r)
    ensures InMain(r) && r.max == s.max && r.seed >= s.seed
    ensures forall id :: id in r.table && id !in s.table ==> id >= s.seed
    decreases |ops|
  {
    if ops != [] {
      ApplyKeepsMain(s, ops[0]);
      RunsStayInMain(Apply(s, ops[0]), ops[1..], r);
    }
  }

  // ---------- resumes must not nest ----------

  /** A resume of b from inside a coroutine: if it takes over, b runs at once to its own yield or
      its end. */
  function NestedResume<A>(s: Sched<A>, b: int, pauses: bool): Sched<A>
    requires b in s.table ==> s.table[b].state != Done
  {
    var (t, switched) := SwitchIn(s, b);
    if !switched then s else AfterSwap(if pauses then Yield(t) else Finish(t), b)
  }

  /** From inside coroutine a it leaves a the running one exactly when it does not take over at
      all: b is unknown, or a itself. */
  lemma NestedResumeKeepsTheRunnerOnlyIdle<A>(s: Sched<A>, a: int, b: int, pauses: bool)
    requires InCoroutine(s, a)
    ensures InCoroutine(NestedResume(s, b, pauses), a) <==> b !in s.table || b == a
    ensures b in s.table && b != a ==> NestedResume(s, b, pauses).running == -1
  {
    if b in s.table && b != a {
      assert SwitchIn(s, b).1 && SwitchIn(s, b).0.running == b;
    }
  }

  /** And then the outer coroutine still counts as running while running_cid_ is -1, and its own
      yield does nothing at all. */
  lemma NestedResumeLosesTheRunner<A>(s: Sched<A>, a: int, b: int, pauses: bool)
    requires InCoroutine(s, a) && b in s.table && b != a
    ensures var r := NestedResume(s, b, pauses);
      r.running == -1 && a in r.table && r.table[a].state == Running && Yield(r) == r && !InMain(r)
  {
    assert SwitchIn(s, b).1 && SwitchIn(s, b).0.running == b;
    var r := NestedResume(s, b, pauses);
    assert a in r.table && r.table[a].state == Running;
  }

  // ---------- the class ----------

  class CoroutineScheduler<A> {
    var table: map<int, Ctx<A>>
    var runningCid: int
    const coroutineMax: nat
    var cidSeed: nat

    constructor (max: nat)
      ensures View() == Start(max)
    {
      table, runningCid, coroutineMax, cidSeed := map[], -1, max, 0;
    }

    ghost function View(): Sched<A>
      reads this
    {
      Sched(table, runningCid, coroutineMax, cidSeed)
    }

    method CreateCoroutine(arg: A) returns (id: int)
      modifies this
      ensures (View(), id) == Create(old(View()), arg)
    {
      if |table| >= coroutineMax {
        return -2;
      }
      table := table[cidSeed := Ctx(Ready, arg)];
      id := cidSeed;
      cidSeed := cidSeed + 1;
    }

    method DestroyCoroutine(id: int)
      modifies this
      ensures View() == Destroy(old(View()), id)
    {
      if id !in table {
        assert table - {id} == table;
        return;
      }
      table := table - {id};
    }

    method CoroutineBeenAlive(id: int) returns (alive: bool)
      ensures alive == BeenAlive(View(), id)
    {
      alive := id in table && table[id].state != Done;
    }

    /** ResumeCoroutine before the switch. */
    method ResumeBegin(id: int) returns (switched: bool)
      requires id in table ==> table[id].state != Done
      modifies this
      ensures (View(), switched) == SwitchIn(old(View()), id)
    {
      if id !in table {
        return false;
      }
      match table[id].state {
        case Ready =>
          table := table[id := table[id].(state := Running)];
          runningCid := id;
          return true;
        case Suspend =>
          runningCid := id;
          table := table[id := table[id].(state := Running)];
          return true;
        case Running =>
          return false;
        case Done =>
          assert false;
      }
    }

    method YieldCoroutine()
      modifies this
      ensures View() == Yield(old(View()))
    {
      if runningCid < 0 {
        return;
      }
      if runningCid !in table {
        return;
      }
      var id := runningCid;
      runningCid := -1;
      table := table[id := table[id].(state := Suspend)];
    }

    /** ScheduleFunction once the coroutine's function has returned. */
    method ScheduleFunctionEnd()
      requires runningCid in table
      modifies this
      ensures View() == Finish(old(View()))
    {
      table := table[runningCid := table[runningCid].(state := Done)];
      runningCid := -1;
    }

    /** ResumeCoroutine after the switch back. */
    method ResumeEnd(id: int)
      modifies this
      ensures View() == AfterSwap(old(View()), id)
    {
      if id in table && table[id].state == Done {
        DestroyCoroutine(id);
      }
    }
  }
}
