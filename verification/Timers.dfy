/** The timer queue: a list kept sorted by deadline, whose head is fired, stepped and put back
    behind every timer that is not later.  Firing merges the arithmetic progressions of the
    timers. */
module Timers {
  import opened Bytes

  /** A timer as a value.  The serial number stands for the identity of the timer object. */
  datatype Timer = Timer(serial: nat, next: int, step: nat, id: int)

  function Step(t: Timer): Timer {
    t.(next := t.next + t.step)
  }

  ghost predicate NoneEarlier(l: seq<Timer>, floor: int) {
    forall i :: 0 <= i < |l| ==> l[i].next >= floor
  }

  ghost predicate Absent(l: seq<Timer>, serial: nat) {
    forall i :: 0 <= i < |l| ==> l[i].serial != serial
  }

  ghost predicate SerialsBelow(l: seq<Timer>, bound: nat) {
    forall i :: 0 <= i < |l| ==> l[i].serial < bound
  }

  /** Sorted by deadline, no timer twice, every gap positive. */
  ghost predicate Queue(l: seq<Timer>) {
    l == [] || (l[0].step > 0 && NoneEarlier(l[1..], l[0].next) && Absent(l[1..], l[0].serial) && Queue(l[1..]))
  }

  /** Behind every timer that is not later, as upper_bound under timer_cmp_func places it. */
  function Insert(l: seq<Timer>, t: Timer): (r: seq<Timer>)
    ensures |r| == |l| + 1
  {
    if l == [] || l[0].next > t.next then [t] + l else [l[0]] + Insert(l[1..], t)
  }

  /** GetNextActiveTimer on a queue that is not empty. */
  function Fire(l: seq<Timer>): (r: seq<Timer>)
    requires l != []
    ensures |r| == |l|
  {
    Insert(l[1..], Step(l[0]))
  }

  // ---------- the classes ----------

  class EasyTimer {
    ghost const serial: nat
    var next: int
    var step: nat
    var id: int

    /** Init() and Start(): the first deadline is one gap from now. */
    constructor (ghost serial: nat, gap: nat, id: int, now: int)
      ensures View() == Timer(serial, now + gap, gap, id)
    {
      this.serial := serial;
      next, step, this.id := now + gap, gap, id;
    }

    ghost function View(): Timer
      reads this
    {
      Timer(serial, next, step, id)
    }

    /** Step(), with what stays the same in any list that does not hold this timer. */
    method StepOn(ghost others: seq<EasyTimer>)
      requires this !in others
      modifies this
      ensures View() == Step(old(View())) && Views(others) == old(Views(others))
    {
      next := next + step;
    }
  }

  ghost function Views(list: seq<EasyTimer>): (l: seq<Timer>)
    reads list
    ensures |l| == |list|
    ensures forall i :: 0 <= i < |l| ==> l[i] == list[i].View()
  {
    if list == [] then [] else [list[0].View()] + Views(list[1..])
  }

  class TimerMgr {
    var maxTimerNum: nat
    var timerList: seq<EasyTimer>
    ghost var created: nat

    constructor (max: nat)
      ensures Valid() && View() == [] && maxTimerNum == max
    {
      maxTimerNum, timerList, created := max, [], 0;
    }

    ghost function View(): (l: seq<Timer>)
      reads this, timerList
    {
      Views(timerList)
    }

    ghost predicate Valid()
      reads this, timerList
    {
      Queue(View()) && SerialsBelow(View(), created)
    }

    method GetNextActiveTimer() returns (timer: EasyTimer?)
      requires Valid()
      modifies this, timerList
      ensures Valid() && maxTimerNum == old(maxTimerNum) && created == old(created)
      ensures timer == null <==> old(timerList) == []
      ensures timer == null ==> View() == old(View())
      ensures timer != null ==> timer == old(timerList)[0] && View() == Fire(old(View()))
    {
      if |timerList| == 0 {
        return null;
      }
      ghost var was := View();
      var curr, rest := timerList[0], timerList[1..];
      HeadIsAlone(timerList);
      curr.StepOn(rest);
      timerList := Placed(rest, curr);
      FireKeepsQueue(was);
      InsertKeepsSerials(was[1..], Step(was[0]), created);
      timer := curr;
    }

    method AddTimer(gap: nat, id: int, now: int) returns (timer: EasyTimer?)
      requires Valid()
      modifies this
      ensures Valid() && maxTimerNum == old(maxTimerNum)
      ensures timer == null <==> gap == 0 || |old(timerList)| >= maxTimerNum
      ensures timer == null ==> View() == old(View())
      ensures timer != null ==> fresh(timer) && timer.View() == Timer(old(created), now + gap, gap, id)
      ensures timer != null ==> View() == Insert(old(View()), timer.View())
    {
      if gap == 0 {
        return null;
      }
      if |timerList| >= maxTimerNum {
        return null;
      }
      ghost var was := View();
      var t := new EasyTimer(created, gap, id, now);
      timerList := Placed(timerList, t);
      InsertKeepsQueue(was, t.View());
      created := created + 1;
      InsertKeepsSerials(was, t.View(), created);
      timer := t;
    }
  }

  /** upper_bound, then insert. */
  method Placed(list: seq<EasyTimer>, t: EasyTimer) returns (l: seq<EasyTimer>)
    requires Queue(Views(list))
    ensures Views(l) == Insert(Views(list), t.View())
    ensures forall e :: e in l ==> e == t || e in list
  {
    var k := FindUpperBound(list, t.next);
    var front, back := list[..k], list[k..];
    InsertedViews(front, t, back);
    assert list == front + back;
    l := front + [t] + back;
  }

  lemma HeadIsAlone(list: seq<EasyTimer>)
    requires list != [] && Absent(Views(list)[1..], list[0].serial)
    ensures list[0] !in list[1..]
  {
    forall i | 0 < i < |list|
      ensures list[i] != list[0]
    {
      assert Views(list)[1..][i - 1].serial == list[i].serial;
    }
  }

  lemma {:induction false} ViewsConcat(a: seq<EasyTimer>, b: seq<EasyTimer>)
    ensures Views(a + b) == Views(a) + Views(b)
    decreases |a|
  {
    if a == [] {
      assert a + b == b;
    } else {
      assert (a + b)[1..] == a[1..] + b;
      ViewsConcat(a[1..], b);
    }
  }

  lemma InsertedViews(front: seq<EasyTimer>, t: EasyTimer, back: seq<EasyTimer>)
    requires forall i :: 0 <= i < |front| ==> front[i].next <= t.next
    requires back != [] ==> back[0].next > t.next
    ensures Views(front + [t] + back) == Insert(Views(front + back), t.View())
  {
    ViewsConcat(front, back);
    ViewsConcat(front, [t]);
    ViewsConcat(front + [t], back);
    assert Views([t]) == [t.View()];
    InsertIsSplice(Views(front), t.View(), Views(back));
  }

  /** std::upper_bound, a binary search: the first place whose timer is later. */
  method FindUpperBound(list: seq<EasyTimer>, next: int) returns (first: nat)
    requires Queue(Views(list))
    ensures first <= |list|
    ensures forall i :: 0 <= i < first ==> list[i].next <= next
    ensures first < |list| ==> list[first].next > next
  {
    ghost var l := Views(list);
    first := 0;
    var len: nat := |list|;
    while len > 0
      invariant first + len <= |list|
      invariant forall i :: 0 <= i < first ==> l[i].next <= next
      invariant first + len < |list| ==> l[first + len].next > next
    {
      var half := len / 2;
      var middle := first + half;
      assert l[middle].next == list[middle].next;
      if next < list[middle].next {
        len := half;
      } else {
        SortedUpTo(l, middle);
        first := middle + 1;
        len := len - half - 1;
      }
    }
  }

  lemma {:induction false} SortedUpTo(l: seq<Timer>, j: nat)
    requires Queue(l) && j < |l|
    ensures forall i :: 0 <= i <= j ==> l[i].next <= l[j].next
  {
    if j > 0 {
      SortedUpTo(l[1..], j - 1);
      assert forall i :: 0 < i <= j ==> l[i] == l[1..][i - 1];
    }
  }

  lemma {:induction false} InsertIsSplice(front: seq<Timer>, t: Timer, back: seq<Timer>)
    requires forall i :: 0 <= i < |front| ==> front[i].next <= t.next
    requires back != [] ==> back[0].next > t.next
    ensures Insert(front + back, t) == front + [t] + back
    decreases |front|
  {
    if front == [] {
      assert front + back == back && front + [t] + back == [t] + back;
    } else {
      assert (front + back)[1..] == front[1..] + back;
      InsertIsSplice(front[1..], t, back);
      assert front == [front[0]] + front[1..];
    }
  }

  // ---------- what one operation keeps ----------

  lemma {:induction false} InsertKeepsBounds(l: seq<Timer>, t: Timer, floor: int, serial: nat)
    ensures NoneEarlier(l, floor) && t.next >= floor ==> NoneEarlier(Insert(l, t), floor)
    ensures Absent(l, serial) && t.serial != serial ==> Absent(Insert(l, t), serial)
  {
    if l != [] && l[0].next <= t.next {
      InsertKeepsBounds(l[1..], t, floor, serial);
    }
  }

  lemma {:induction false} InsertKeepsSerials(l: seq<Timer>, t: Timer, bound: nat)
    requires SerialsBelow(l, bound) && t.serial < bound
    ensures SerialsBelow(Insert(l, t), bound)
  {
    if l != [] && l[0].next <= t.next {
      InsertKeepsSerials(l[1..], t, bound);
    }
  }

  lemma {:induction false} InsertKeepsQueue(l: seq<Timer>, t: Timer)
    requires Queue(l) && t.step > 0 && Absent(l, t.serial)
    ensures Queue(Insert(l, t))
  {
    if l == [] || l[0].next > t.next {
      assert ([t] + l)[1..] == l;
    } else {
      InsertKeepsQueue(l[1..], t);
      InsertKeepsBounds(l[1..], t, l[0].next, l[0].serial);
      assert Insert(l, t)[1..] == Insert(l[1..], t);
    }
  }

  lemma FireKeepsQueue(l: seq<Timer>)
    requires Queue(l) && l != []
    ensures Queue(Fire(l)) && NoneEarlier(Fire(l), l[0].next)
  {
    InsertKeepsQueue(l[1..], Step(l[0]));
    InsertKeepsBounds(l[1..], Step(l[0]), l[0].next, 0);
  }

  /** The timer with a given serial number. */
  function Lookup(l: seq<Timer>, serial: nat): (r: Option<Timer>)
    ensures r.Some? ==> r.value in l && r.value.serial == serial
  {
    if l == [] then None else if l[0].serial == serial then Some(l[0]) else Lookup(l[1..], serial)
  }

  lemma {:induction false} LookupInserted(l: seq<Timer>, t: Timer, serial: nat)
    requires Absent(l, t.serial)
    ensures Lookup(Insert(l, t), serial) == if serial == t.serial then Some(t) else Lookup(l, serial)
  {
    if l == [] || l[0].next > t.next {
      assert ([t] + l)[1..] == l;
    } else {
      LookupInserted(l[1..], t, serial);
      assert Insert(l, t)[1..] == Insert(l[1..], t);
    }
  }

  /** Firing steps the head and leaves every other timer alone. */
  lemma FireStepsTheHead(l: seq<Timer>, serial: nat)
    requires Queue(l) && l != []
    ensures Lookup(Fire(l), serial) == if serial == l[0].serial then Some(Step(l[0])) else Lookup(l, serial)
  {
    LookupInserted(l[1..], Step(l[0]), serial);
  }

  // ---------- runs over a fixed set of timers ----------

  datatype Firing = Firing(serial: nat, deadline: int)

  function After(l: seq<Timer>, n: nat): (r: seq<Timer>)
    requires l != []
    ensures |r| == |l|
    decreases n
  {
    if n == 0 then l else After(Fire(l), n - 1)
  }

  /** The first n firings. */
  function Fired(l: seq<Timer>, n: nat): (r: seq<Firing>)
    requires l != []
    ensures |r| == n
    decreases n
  {
    if n == 0 then [] else [Firing(l[0].serial, l[0].next)] + Fired(Fire(l), n - 1)
  }

  /** Deadlines fire in non-decreasing order, and whatever is left is no earlier. */
  lemma {:induction false} DeadlinesNeverGoBack(l: seq<Timer>, n: nat, floor: int)
    requires Queue(l) && l != [] && NoneEarlier(l, floor)
    ensures forall i :: 0 <= i < n ==> Fired(l, n)[i].deadline >= floor
    ensures forall i, j :: 0 <= i < j < n ==> Fired(l, n)[i].deadline <= Fired(l, n)[j].deadline
    ensures NoneEarlier(After(l, n), if n == 0 then floor else Fired(l, n)[n - 1].deadline)
    ensures NoneEarlier(After(l, n), floor)
    decreases n
  {
    if n > 0 {
      FireKeepsQueue(l);
      DeadlinesNeverGoBack(Fire(l), n - 1, l[0].next);
    }
  }

  /** The deadlines at which one timer fired. */
  function DeadlinesOf(fs: seq<Firing>, serial: nat): seq<int> {
    if fs == [] then []
    else (if fs[0].serial == serial then [fs[0].deadline] else []) + DeadlinesOf(fs[1..], serial)
  }

  /** start, start + step, start + 2 step, ...: n of them. */
  function Progression(start: int, step: nat, n: nat): (r: seq<int>)
    ensures |r| == n
    decreases n
  {
    if n == 0 then [] else [start] + Progression(start + step, step, n - 1)
  }

  function Nth(start: int, step: nat, k: nat): int
    decreases k
  {
    if k == 0 then start else Nth(start + step, step, k - 1)
  }

  lemma {:induction false} ProgressionAt(start: int, step: nat, n: nat, k: nat)
    requires k < n
    ensures Progression(start, step, n)[k] == Nth(start, step, k)
    decreases k
  {
    if k > 0 {
      ProgressionAt(start + step, step, n - 1, k - 1);
    }
  }

  lemma {:induction false} NthIs(start: int, step: nat, k: nat)
    ensures Nth(start, step, k) == start + k * step
    decreases k
  {
    if k > 0 {
      NthIs(start + step, step, k - 1);
      assert start + step + (k - 1) * step == start + k * step;
    }
  }

  lemma {:induction false} NthGrows(start: int, step: nat, j: nat, k: nat)
    requires j <= k
    ensures Nth(start, step, j) <= Nth(start, step, k)
    decreases k
  {
    if j > 0 {
      NthGrows(start + step, step, j - 1, k - 1);
    } else if k > 0 {
      NthGrows(start + step, step, 0, k - 1);
    }
  }

  /** Each timer fires at s, s + p, s + 2p, ..., with no deadline skipped and none repeated, and
      its next deadline continues the series. */
  lemma {:induction false} TimerFiresItsProgression(l: seq<Timer>, n: nat, t: Timer)
    requires Queue(l) && l != [] && Lookup(l, t.serial) == Some(t)
    ensures var ds := DeadlinesOf(Fired(l, n), t.serial);
      && ds == Progression(t.next, t.step, |ds|)
      && Lookup(After(l, n), t.serial) == Some(t.(next := Nth(t.next, t.step, |ds|)))
    decreases n
  {
    if n > 0 {
      FireKeepsQueue(l);
      FireStepsTheHead(l, t.serial);
      assert Fired(l, n)[1..] == Fired(Fire(l), n - 1);
      TimerFiresItsProgression(Fire(l), n - 1, if l[0].serial == t.serial then Step(t) else t);
    }
  }

  /** The merge is complete: by the time a deadline has fired, every timer has fired at every
      earlier point of its own series, and at none later. */
  lemma NoDeadlineIsSkipped(l: seq<Timer>, n: nat, t: Timer, j: nat)
    requires Queue(l) && n > 0 && l != [] && Lookup(l, t.serial) == Some(t)
    ensures var c := |DeadlinesOf(Fired(l, n), t.serial)|;
      var last := Fired(l, n)[n - 1].deadline;
      (t.next + j * t.step < last ==> j < c) && (j < c ==> t.next + j * t.step <= last)
  {
    var fs := Fired(l, n);
    var c := |DeadlinesOf(fs, t.serial)|;
    NthIs(t.next, t.step, j);
    TimerFiresItsProgression(l, n, t);
    DeadlinesNeverGoBack(l, n, l[0].next);
    if j >= c {
      NthGrows(t.next, t.step, c, j);
    } else {
      ProgressionAt(t.next, t.step, c, j);
      var i := FiringOf(fs, t.serial, j);
    }
  }

  lemma {:induction false} FiringOf(fs: seq<Firing>, serial: nat, j: nat) returns (i: nat)
    requires j < |DeadlinesOf(fs, serial)|
    ensures i < |fs| && fs[i] == Firing(serial, DeadlinesOf(fs, serial)[j])
    decreases |fs|
  {
    if fs[0].serial == serial && j == 0 {
      i := 0;
    } else {
      i := FiringOf(fs[1..], serial, if fs[0].serial == serial then j - 1 else j);
      i := i + 1;
    }
  }

  /** Timer a stands somewhere before timer b. */
  ghost predicate Precedes(l: seq<Timer>, a: nat, b: nat) {
    l != [] && l[0].serial != b && (l[0].serial == a || Precedes(l[1..], a, b))
  }

  lemma {:induction false} InsertKeepsOrder(l: seq<Timer>, t: Timer, a: nat, b: nat)
    requires Precedes(l, a, b) && t.serial != b
    ensures Precedes(Insert(l, t), a, b)
  {
    if l[0].next > t.next {
      assert ([t] + l)[1..] == l;
    } else {
      assert Insert(l, t)[1..] == Insert(l[1..], t);
      if l[0].serial != a {
        InsertKeepsOrder(l[1..], t, a, b);
      }
    }
  }

  /** When a timer fires for the first time; |fs| when it does not. */
  function FirstFiring(fs: seq<Firing>, serial: nat): (k: nat)
    ensures k <= |fs|
    ensures k < |fs| ==> fs[k].serial == serial
    ensures forall i :: 0 <= i < k ==> fs[i].serial != serial
  {
    if fs == [] || fs[0].serial == serial then 0 else 1 + FirstFiring(fs[1..], serial)
  }

  /** Timers first fire in list order; for equal deadlines that is the order they were put in. */
  lemma {:induction false} ListOrderIsFiringOrder(l: seq<Timer>, n: nat, a: nat, b: nat)
    requires Queue(l) && Precedes(l, a, b)
    ensures FirstFiring(Fired(l, n), b) < n ==> FirstFiring(Fired(l, n), a) < FirstFiring(Fired(l, n), b)
    decreases n
  {
    if n > 0 && l[0].serial != a {
      FireKeepsQueue(l);
      InsertKeepsOrder(l[1..], Step(l[0]), a, b);
      ListOrderIsFiringOrder(Fire(l), n - 1, a, b);
      assert Fired(l, n)[1..] == Fired(Fire(l), n - 1);
    }
  }

  // ---------- how many firings are due ----------

  /** How many deadlines of one series are not after now. */
  function Due(next: int, step: nat, now: int): (n: nat)
    requires step > 0
    decreases now - next
  {
    if next > now then 0 else 1 + Due(next + step, step, now)
  }

  function TotalDue(l: seq<Timer>, now: int): (n: nat)
    requires Queue(l)
  {
    if l == [] then 0 else Due(l[0].next, l[0].step, now) + TotalDue(l[1..], now)
  }

  lemma {:induction false} TotalDueInserted(l: seq<Timer>, t: Timer, now: int)
    requires Queue(l) && t.step > 0 && Absent(l, t.serial)
    ensures Queue(Insert(l, t)) && TotalDue(Insert(l, t), now) == Due(t.next, t.step, now) + TotalDue(l, now)
  {
    InsertKeepsQueue(l, t);
    if l == [] || l[0].next > t.next {
      assert ([t] + l)[1..] == l;
    } else {
      TotalDueInserted(l[1..], t, now);
      assert Insert(l, t)[1..] == Insert(l[1..], t);
    }
  }

  /** The head is due exactly as long as fewer firings have happened than deadlines were due:
      firing that many times, and no fewer, catches up with the clock. */
  lemma {:induction false} CatchingUp(l: seq<Timer>, now: int, n: nat)
    requires Queue(l) && l != []
    ensures After(l, n)[0].next <= now <==> n < TotalDue(l, now)
    decreases n
  {
    if l[0].next > now {
      NothingDue(l, now);
      DeadlinesNeverGoBack(l, n, l[0].next);
    } else {
      TotalDueInserted(l[1..], Step(l[0]), now);
      if n > 0 {
        CatchingUp(Fire(l), now, n - 1);
      }
    }
  }

  lemma {:induction false} NothingDue(l: seq<Timer>, now: int)
    requires Queue(l) && NoneEarlier(l, now + 1)
    ensures TotalDue(l, now) == 0
  {
    if l != [] {
      NothingDue(l[1..], now);
    }
  }

  /** The loop in Tick() leaves only when the queue returns no timer; n turns at most. */
  ghost predicate TickLoopStops(l: seq<Timer>, n: nat) {
    l == [] || exists k :: 0 <= k < n && After(l, k) == []
  }

  /** The clock plays no part in it: that loop ends if and only if there is no timer at all. */
  lemma TickLoopStopsOnlyWhenEmpty(l: seq<Timer>, n: nat)
    ensures TickLoopStops(l, n) <==> l == []
  {
    if l != [] {
      forall k | 0 <= k < n
        ensures After(l, k) != []
      {
        assert |After(l, k)| == |l|;
      }
    }
  }
}
