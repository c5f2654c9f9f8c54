/** The table of front-end connections: a hash map walked by a cursor that survives insertions
    and removals, a few entries a call, and the limits checked on each visit. */
module NetTable {
  import opened Bytes
  import Framing

  /** kSingleRoundLoopNum: visits per call. */
  const ROUND: nat := 1024

  /** A connection as the table sees it.  The two counters are what came in since the last reset;
      prev_pkg_count_ and prev_traffic_bytes_ are only ever 0. */
  datatype Net = Net(fd: int, nid: nat, pkgs: nat, bytes: nat, lastActive: int)

  datatype Setting = Setting(maxIdle: int, maxPkgSpeed: int, maxTrafficSpeed: int)

  /** DoSomething: whether the connection is closed, and its counters if it is not. */
  function DoSomething(s: Setting, now: int, net: Net): (r: (bool, Net))
    ensures r.1.fd == net.fd && r.1.nid == net.nid && r.1.lastActive == net.lastActive
  {
    if s.maxIdle > 0 && now - net.lastActive > s.maxIdle then (true, net)
    else if s.maxPkgSpeed > 0 && net.pkgs > s.maxPkgSpeed then (true, net)
    else
      var counted := if s.maxPkgSpeed > 0 then net.(pkgs := 0) else net;
      if s.maxTrafficSpeed > 0 && counted.bytes > s.maxTrafficSpeed then (true, counted)
      else (false, if s.maxTrafficSpeed > 0 then counted.(bytes := 0) else counted)
  }

  /** What one connection has delivered: packets and octets up to its last visit, and packets,
      octets and payload since; and when it was last heard of. */
  datatype Life = Life(visits: nat, packets: nat, octets: nat, newPackets: nat, newOctets: nat, newPayload: nat, heard: int)

  function Born(now: int): Life {
    Life(0, 0, 0, 0, 0, 0, now)
  }

  /** The pool in iteration order and the cursor into it; |pool| is end().  Every connection gets
      the next number.  The rest is history: the log is every visit so far, swept and present
      belong to the current sweep, what it has visited and which connections have been there since
      it began, and lives says what each connection has delivered. */
  datatype Table = Table(seed: nat, pool: seq<Net>, cursor: nat, log: seq<nat>, swept: seq<nat>, present: set<nat>,
                         lives: map<nat, Life>)

  const EMPTY := Table(1, [], 0, [], [], {}, map[])

  function LifeOf(t: Table, nid: nat): Life {
    if nid in t.lives then t.lives[nid] else Born(0)
  }

  function Nids(pool: seq<Net>): (s: set<nat>) {
    set n | n in pool :: n.nid
  }

  function IndexOfFd(pool: seq<Net>, fd: int): (k: nat)
    ensures k <= |pool|
    ensures k < |pool| ==> pool[k].fd == fd
    ensures forall i :: 0 <= i < k ==> pool[i].fd != fd
  {
    if pool == [] || pool[0].fd == fd then 0 else 1 + IndexOfFd(pool[1..], fd)
  }

  /** handler_pool_[fd] = net: a known descriptor is overwritten where it stands, a new one goes
      wherever the hash map puts it; the cursor stays on its entry, or at the end. */
  function Add(t: Table, fd: int, place: nat, now: int): (r: Table)
    requires t.cursor <= |t.pool|
    ensures r.cursor <= |r.pool|
  {
    var net := Net(fd, t.seed, 0, 0, now);
    var k := IndexOfFd(t.pool, fd);
    var lives := t.lives[t.seed := Born(now)];
    if k < |t.pool| then t.(seed := t.seed + 1, pool := t.pool[k := net], lives := lives)
    else
      var p := if place <= |t.pool| then place else |t.pool|;
      t.(seed := t.seed + 1, pool := t.pool[..p] + [net] + t.pool[p..],
         cursor := if p <= t.cursor then t.cursor + 1 else t.cursor, lives := lives)
  }

  function PayloadOctets(ds: seq<Framing.Delivery>): nat {
    if ds == [] then 0 else (if ds[0].Payload? then |ds[0].bytes| else 0) + PayloadOctets(ds[1..])
  }

  /** The read callback of connection fd with these octets in its receive buffer: its counters go
      up by the frames delivered and the octets drained. */
  function Feed(t: Table, fd: int, window: seq<byte>, now: int): (r: Table)
    ensures r.cursor == t.cursor && |r.pool| == |t.pool|
  {
    var k := IndexOfFd(t.pool, fd);
    if k == |t.pool| then t
    else
      var net, ds, used := t.pool[k], Framing.Deliveries(window), Framing.Used(window);
      var l := LifeOf(t, net.nid);
      t.(pool := t.pool[k := net.(pkgs := net.pkgs + |ds|, bytes := net.bytes + used, lastActive := now)],
         lives := t.lives[net.nid := l.(newPackets := l.newPackets + |ds|, newOctets := l.newOctets + used,
                                        newPayload := l.newPayload + PayloadOctets(ds), heard := now)])
  }

  /** RemoveHandlerByEvent: a cursor on the removed entry moves on to the next one. */
  function Remove(t: Table, fd: int): Table {
    var k := IndexOfFd(t.pool, fd);
    if k == |t.pool| then t
    else t.(pool := t.pool[..k] + t.pool[k + 1..], cursor := if k < t.cursor then t.cursor - 1 else t.cursor)
  }

  /** One visit at the cursor. */
  function Visit(t: Table, s: Setting, now: int): (r: Table)
    requires t.cursor < |t.pool|
  {
    var c := t.cursor;
    var (closed, net) := DoSomething(s, now, t.pool[c]);
    var l := LifeOf(t, net.nid);
    var older := Life(l.visits + 1, l.packets + l.newPackets, l.octets + l.newOctets, 0, 0, 0, l.heard);
    var seen := t.(log := t.log + [net.nid], swept := t.swept + [net.nid], lives := t.lives[net.nid := older]);
    if closed then seen.(pool := t.pool[..c] + t.pool[c + 1..])
    else seen.(pool := t.pool[c := net], cursor := c + 1)
  }

  function Visits(t: Table, s: Setting, now: int, n: nat): (r: Table)
    requires t.cursor <= |t.pool|
    ensures r.cursor <= |r.pool|
    decreases |t.pool| - t.cursor
  {
    if n == 0 || t.cursor == |t.pool| then t else Visits(Visit(t, s, now), s, now, n - 1)
  }

  /** A sweep that reaches the end starts over with everything now in the pool. */
  function Wrap(t: Table): Table {
    if t.cursor == |t.pool| then t.(cursor := 0, swept := [], present := Nids(t.pool)) else t
  }

  function Walk(t: Table, s: Setting, now: int): (r: Table)
    requires t.cursor <= |t.pool|
    ensures r.cursor <= |r.pool|
  {
    Wrap(Visits(t, s, now, ROUND))
  }

  // ---------- the class ----------

  class NetHandlerMgr {
    var seed: nat
    var pool: seq<Net>
    var cursor: nat
    ghost var log: seq<nat>
    ghost var swept: seq<nat>
    ghost var present: set<nat>
    ghost var lives: map<nat, Life>

    constructor ()
      ensures View() == EMPTY
    {
      seed, pool, cursor := 1, [], 0;
      log, swept, present, lives := [], [], {}, map[];
    }

    ghost function View(): Table
      reads this
    {
      Table(seed, pool, cursor, log, swept, present, lives)
    }

    method AddHandlerBySocket(fd: int, place: nat, now: int)
      requires cursor <= |pool|
      modifies this
      ensures View() == Add(old(View()), fd, place, now)
    {
      var net := Net(fd, seed, 0, 0, now);
      lives := lives[seed := Born(now)];
      seed := seed + 1;
      var k := IndexOfFd(pool, fd);
      if k < |pool| {
        pool := pool[k := net];
      } else {
        var p := if place <= |pool| then place else |pool|;
        pool := pool[..p] + [net] + pool[p..];
        if p <= cursor {
          cursor := cursor + 1;
        }
      }
    }

    /** The counting in OnFrontEndMsg: one packet for each frame, all octets drained at the end. */
    method CountTraffic(fd: int, window: seq<byte>, now: int)
      modifies this
      ensures View() == Feed(old(View()), fd, window, now)
    {
      var k := IndexOfFd(pool, fd);
      if k < |pool| {
        var net := pool[k];
        var ds, elapsed := Framing.Deliveries(window), Framing.Used(window);
        pool := pool[k := net.(pkgs := net.pkgs + |ds|, bytes := net.bytes + elapsed, lastActive := now)];
        ghost var l := if net.nid in lives then lives[net.nid] else Born(0);
        lives := lives[net.nid := l.(newPackets := l.newPackets + |ds|, newOctets := l.newOctets + elapsed,
                                     newPayload := l.newPayload + PayloadOctets(ds), heard := now)];
      }
    }

    method RemoveHandlerByFd(fd: int)
      requires cursor <= |pool|
      modifies this
      ensures View() == Remove(old(View()), fd)
    {
      var k := IndexOfFd(pool, fd);
      if k < |pool| {
        pool := pool[..k] + pool[k + 1..];
        if k < cursor {
          cursor := cursor - 1;
        }
      }
    }

    /** Both the descriptor and the connection's own number have to match. */
    method GetHandlerByAsyncIds(fd: int, nid: nat) returns (net: Option<Net>)
      ensures net.Some? ==> net.value in pool && net.value.fd == fd && net.value.nid == nid
      ensures net.None? ==> IndexOfFd(pool, fd) == |pool| || pool[IndexOfFd(pool, fd)].nid != nid
    {
      var k := IndexOfFd(pool, fd);
      net := if k < |pool| && pool[k].nid == nid then Some(pool[k]) else None;
    }

    /** One turn of the loop in WalkThrough. */
    method VisitOne(s: Setting, now: int)
      requires cursor < |pool|
      modifies this
      ensures View() == Visit(old(View()), s, now)
    {
      var (closed, net) := DoSomething(s, now, pool[cursor]);
      ghost var l := if net.nid in lives then lives[net.nid] else Born(0);
      log, swept := log + [net.nid], swept + [net.nid];
      lives := lives[net.nid := Life(l.visits + 1, l.packets + l.newPackets, l.octets + l.newOctets, 0, 0, 0, l.heard)];
      if closed {
        pool := pool[..cursor] + pool[cursor + 1..];
      } else {
        pool := pool[cursor := net];
        cursor := cursor + 1;
      }
    }

    method WalkThrough(s: Setting, now: int)
      requires cursor <= |pool|
      modifies this
      ensures View() == Walk(old(View()), s, now)
    {
      var i := 0;
      while i < ROUND && cursor != |pool|
        invariant i <= ROUND && cursor <= |pool|
        invariant Visits(View(), s, now, ROUND - i) == Visits(old(View()), s, now, ROUND)
      {
        VisitOne(s, now);
        i := i + 1;
      }
      if cursor == |pool| {
        cursor := 0;
        swept, present := [], Nids(pool);
      }
    }
  }

  // ---------- one sweep ----------

  ghost predicate DistinctNids(pool: seq<Net>) {
    forall i, j :: 0 <= i < j < |pool| ==> pool[i].nid != pool[j].nid
  }

  ghost predicate NoRepeats(s: seq<nat>) {
    forall i, j :: 0 <= i < j < |s| ==> s[i] != s[j]
  }

  /** Of the connections there since the sweep began, exactly those before the cursor have been
      visited, none twice. */
  ghost predicate Sweeping(t: Table) {
    && t.cursor <= |t.pool|
    && DistinctNids(t.pool)
    && NoRepeats(t.swept)
    && (forall i :: 0 <= i < |t.pool| ==> t.pool[i].nid < t.seed)
    && (forall n :: n in t.swept || n in t.present ==> n < t.seed)
    && (forall i :: t.cursor <= i < |t.pool| ==> t.pool[i].nid !in t.swept)
    && (forall i :: 0 <= i < t.cursor && t.pool[i].nid in t.present ==> t.pool[i].nid in t.swept)
  }

  /** What every visit keeps, any number of visits keeps. */
  lemma {:induction false} VisitsKeep(kept: Table -> bool, t: Table, s: Setting, now: int, n: nat)
    requires t.cursor <= |t.pool| && kept(t)
    requires forall u: Table {:trigger Visit(u, s, now)} :: u.cursor < |u.pool| && kept(u) ==> kept(Visit(u, s, now))
    ensures kept(Visits(t, s, now, n))
    decreases n
  {
    if n > 0 && t.cursor < |t.pool| {
      VisitsKeep(kept, Visit(t, s, now), s, now, n - 1);
    }
  }

  lemma VisitsKeepSweeping(t: Table, s: Setting, now: int, n: nat)
    requires Sweeping(t)
    ensures Sweeping(Visits(t, s, now, n))
  {
    forall u: Table | u.cursor < |u.pool| && Sweeping(u) ensures Sweeping(Visit(u, s, now)) {
      VisitKeepsSweeping(u, s, now);
    }
    VisitsKeep((u: Table) => Sweeping(u), t, s, now, n);
  }

  lemma VisitKeepsSweeping(t: Table, s: Setting, now: int)
    requires Sweeping(t) && t.cursor < |t.pool|
    ensures Sweeping(Visit(t, s, now))
  {
    var c := t.cursor;
    var r := Visit(t, s, now);
    var (closed, net) := DoSomething(s, now, t.pool[c]);
    if closed {
      assert forall i :: 0 <= i < |r.pool| ==> r.pool[i] == if i < c then t.pool[i] else t.pool[i + 1];
    }
  }

  lemma WalkKeepsSweeping(t: Table, s: Setting, now: int)
    requires Sweeping(t)
    ensures Sweeping(Walk(t, s, now))
  {
    VisitsKeepSweeping(t, s, now, ROUND);
  }

  lemma RemoveKeepsSweeping(t: Table, fd: int)
    requires Sweeping(t)
    ensures Sweeping(Remove(t, fd))
  {
    var r := Remove(t, fd);
    var k := IndexOfFd(t.pool, fd);
    if k < |t.pool| {
      forall i | 0 <= i < |r.pool| ensures r.pool[i] == Dropped(t.pool, k, i) {
      }
      DropKeepsSweeping(t, r, k);
    }
  }

  function Dropped(pool: seq<Net>, k: nat, i: nat): Net
    requires i + 1 < |pool|
  {
    if i < k then pool[i] else pool[i + 1]
  }

  lemma DropKeepsSweeping(t: Table, r: Table, k: nat)
    requires Sweeping(t) && k < |t.pool| && |r.pool| == |t.pool| - 1 && r.seed == t.seed
    requires forall i :: 0 <= i < |r.pool| ==> r.pool[i] == Dropped(t.pool, k, i)
    requires r.cursor == (if k < t.cursor then t.cursor - 1 else t.cursor) && r.swept == t.swept && r.present == t.present
    ensures Sweeping(r)
  {
  }

  lemma AddKeepsSweeping(t: Table, fd: int, place: nat, now: int)
    requires Sweeping(t)
    ensures Sweeping(Add(t, fd, place, now))
  {
    if IndexOfFd(t.pool, fd) == |t.pool| {
      var p := if place <= |t.pool| then place else |t.pool|;
      var net := Net(fd, t.seed, 0, 0, now);
      SpliceIsDistinct(t.pool, p, net);
      SpliceKeepsSweeping(t, Add(t, fd, place, now), p, net);
    }
  }

  function Spliced(pool: seq<Net>, p: nat, net: Net, i: nat): Net
    requires p <= |pool| && i <= |pool|
  {
    if i < p then pool[i] else if i == p then net else pool[i - 1]
  }

  lemma SpliceKeepsSweeping(t: Table, r: Table, p: nat, net: Net)
    requires Sweeping(t) && p <= |t.pool| && net.nid == t.seed && r.seed == t.seed + 1
    requires |r.pool| == |t.pool| + 1 && DistinctNids(r.pool)
    requires forall i :: 0 <= i < |r.pool| ==> r.pool[i] == Spliced(t.pool, p, net, i)
    requires r.cursor == (if p <= t.cursor then t.cursor + 1 else t.cursor) && r.swept == t.swept && r.present == t.present
    ensures Sweeping(r)
  {
    forall i | 0 <= i < |r.pool| ensures r.pool[i].nid < r.seed && r.pool[i] == Spliced(t.pool, p, net, i) {
    }
  }

  lemma SpliceIsDistinct(pool: seq<Net>, p: nat, net: Net)
    requires p <= |pool| && DistinctNids(pool) && forall i :: 0 <= i < |pool| ==> pool[i].nid < net.nid
    ensures DistinctNids(pool[..p] + [net] + pool[p..])
    ensures forall i :: 0 <= i <= |pool| ==> (pool[..p] + [net] + pool[p..])[i] == Spliced(pool, p, net, i)
  {
  }

  lemma FeedKeepsSweeping(t: Table, fd: int, window: seq<byte>, now: int)
    requires Sweeping(t)
    ensures Sweeping(Feed(t, fd, window, now))
  {
    var r := Feed(t, fd, window, now);
    assert forall i :: 0 <= i < |r.pool| ==> r.pool[i].nid == t.pool[i].nid;
  }

  /** What happens to the table: a call, a removal, a connect, and traffic on a connection. */
  datatype Op =
    | WalkOp(now: int)
    | RemoveOp(fd: int)
    | AddOp(newFd: int, place: nat, at: int)
    | TrafficOp(on: int, window: seq<byte>, arrived: int)

  function Apply(t: Table, s: Setting, op: Op): (r: Table)
    requires t.cursor <= |t.pool|
    ensures r.cursor <= |r.pool|
  {
    match op
    case WalkOp(now) => Walk(t, s, now)
    case RemoveOp(fd) => Remove(t, fd)
    case AddOp(fd, place, now) => Add(t, fd, place, now)
    case TrafficOp(fd, window, now) => Feed(t, fd, window, now)
  }

  function RunOps(t: Table, s: Setting, ops: seq<Op>): (r: Table)
    requires t.cursor <= |t.pool|
    ensures r.cursor <= |r.pool|
    decreases |ops|
  {
    if ops == [] then t else RunOps(Apply(t, s, ops[0]), s, ops[1..])
  }

  lemma {:induction false} RunKeepsSweeping(t: Table, s: Setting, ops: seq<Op>)
    requires Sweeping(t)
    ensures Sweeping(RunOps(t, s, ops))
    decreases |ops|
  {
    if ops != [] {
      match ops[0] {
        case WalkOp(now) => WalkKeepsSweeping(t, s, now);
        case RemoveOp(fd) => RemoveKeepsSweeping(t, fd);
        case AddOp(fd, place, now) => AddKeepsSweeping(t, fd, place, now);
        case TrafficOp(fd, window, now) => FeedKeepsSweeping(t, fd, window, now);
      }
      RunKeepsSweeping(Apply(t, s, ops[0]), s, ops[1..]);
    }
  }

  /** After any history of connects, removals, traffic and calls, closures for speed among them: when
      a call ends a sweep, every connection that was there throughout has been visited, and none more
      than once. */
  lemma SweepVisitsEachOnce(s: Setting, ops: seq<Op>, now: int, nid: nat)
    ensures var end := Visits(RunOps(EMPTY, s, ops), s, now, ROUND);
      && NoRepeats(end.swept)
      && (end.cursor == |end.pool| && nid in end.present && nid in Nids(end.pool) ==> nid in end.swept)
  {
    RunKeepsSweeping(EMPTY, s, ops);
    VisitsKeepSweeping(RunOps(EMPTY, s, ops), s, now, ROUND);
  }

  // ---------- what an operation does to whom ----------

  /** The map has one entry a descriptor. */
  ghost predicate DistinctFds(pool: seq<Net>) {
    forall i, j :: 0 <= i < j < |pool| ==> pool[i].fd != pool[j].fd
  }

  /** Traffic counts for the connection on that descriptor, and for no other. */
  lemma FeedExactly(t: Table, fd: int, window: seq<byte>, now: int, i: nat)
    requires DistinctFds(t.pool) && i < |t.pool|
    ensures var net := t.pool[i];
      Feed(t, fd, window, now).pool[i]
        == if net.fd != fd then net
           else Net(fd, net.nid, net.pkgs + |Framing.Deliveries(window)|, net.bytes + Framing.Used(window), now)
  {
  }

  /** A removal takes out the connection on that descriptor, and no other. */
  lemma RemoveExactly(t: Table, fd: int, net: Net)
    requires DistinctFds(t.pool)
    ensures net in Remove(t, fd).pool <==> net in t.pool && net.fd != fd
  {
    var r, k := Remove(t, fd), IndexOfFd(t.pool, fd);
    if net in t.pool && net.fd != fd {
      var i :| 0 <= i < |t.pool| && t.pool[i] == net;
      assert k < |t.pool| ==> r.pool[if k < i then i - 1 else i] == net;
    }
    if net in r.pool && k < |t.pool| {
      var i :| 0 <= i < |r.pool| && r.pool[i] == net;
      assert r.pool[i] == Dropped(t.pool, k, i);
    }
  }

  /** A connect puts a connection with the next number, nothing counted and just heard of on its
      descriptor, in place of the one that was there, if any. */
  lemma AddExactly(t: Table, fd: int, place: nat, now: int, net: Net)
    requires t.cursor <= |t.pool| && DistinctFds(t.pool)
    ensures Add(t, fd, place, now).seed == t.seed + 1
    ensures net in Add(t, fd, place, now).pool <==> net == Net(fd, t.seed, 0, 0, now) || (net in t.pool && net.fd != fd)
  {
    var r, k, newcomer := Add(t, fd, place, now), IndexOfFd(t.pool, fd), Net(fd, t.seed, 0, 0, now);
    if k < |t.pool| {
      assert r.pool[k] == newcomer && r.pool[k] in r.pool;
      if net in t.pool && net.fd != fd {
        var i :| 0 <= i < |t.pool| && t.pool[i] == net;
        assert r.pool[i] == net;
      }
    } else {
      var p := if place <= |t.pool| then place else |t.pool|;
      assert t.pool == t.pool[..p] + t.pool[p..];
    }
  }

  lemma AddKeepsFds(t: Table, fd: int, place: nat, now: int)
    requires t.cursor <= |t.pool| && DistinctFds(t.pool)
    ensures DistinctFds(Add(t, fd, place, now).pool)
  {
    var p := if place <= |t.pool| then place else |t.pool|;
    var net := Net(fd, t.seed, 0, 0, now);
    var k, r := IndexOfFd(t.pool, fd), Add(t, fd, place, now);
    if k == |t.pool| {
      assert forall i :: 0 <= i < |r.pool| ==> r.pool[i] == Spliced(t.pool, p, net, i);
    }
  }

  lemma RemoveKeepsFds(t: Table, fd: int)
    requires DistinctFds(t.pool)
    ensures DistinctFds(Remove(t, fd).pool)
  {
    var r, k := Remove(t, fd), IndexOfFd(t.pool, fd);
    if k < |t.pool| {
      assert forall i :: 0 <= i < |r.pool| ==> r.pool[i] == Dropped(t.pool, k, i);
    }
  }

  lemma VisitKeepsFds(t: Table, s: Setting, now: int)
    requires t.cursor < |t.pool| && DistinctFds(t.pool)
    ensures DistinctFds(Visit(t, s, now).pool)
  {
    var r, c := Visit(t, s, now), t.cursor;
    if DoSomething(s, now, t.pool[c]).0 {
      assert forall i :: 0 <= i < |r.pool| ==> r.pool[i] == Dropped(t.pool, c, i);
    }
  }

  lemma VisitsKeepFds(t: Table, s: Setting, now: int, n: nat)
    requires t.cursor <= |t.pool| && DistinctFds(t.pool)
    ensures DistinctFds(Visits(t, s, now, n).pool)
  {
    forall u: Table | u.cursor < |u.pool| && DistinctFds(u.pool) ensures DistinctFds(Visit(u, s, now).pool) {
      VisitKeepsFds(u, s, now);
    }
    VisitsKeep((u: Table) => DistinctFds(u.pool), t, s, now, n);
  }

  /** Whatever happens, no descriptor is in the table twice. */
  lemma {:induction false} RunKeepsFds(t: Table, s: Setting, ops: seq<Op>)
    requires t.cursor <= |t.pool| && DistinctFds(t.pool)
    ensures DistinctFds(RunOps(t, s, ops).pool)
    decreases |ops|
  {
    if ops != [] {
      match ops[0] {
        case WalkOp(now) => VisitsKeepFds(t, s, now, ROUND);
        case RemoveOp(fd) => RemoveKeepsFds(t, fd);
        case AddOp(fd, place, now) => AddKeepsFds(t, fd, place, now);
        case TrafficOp(fd, window, now) =>
      }
      RunKeepsFds(Apply(t, s, ops[0]), s, ops[1..]);
    }
  }

  // ---------- how soon a connection is visited ----------

  function Walks(ops: seq<Op>): nat {
    if ops == [] then 0 else (if ops[0].WalkOp? then 1 else 0) + Walks(ops[1..])
  }

  /** Calls until the entry at i is visited, from a cursor at c in a pool of n. */
  function CallsTo(n: nat, c: nat, i: nat): (k: nat)
    requires c <= n && i < n
    ensures k >= 1
  {
    if i >= c then (i - c) / ROUND + 1
    else (if n - c <= ROUND then 1 else (n - c + ROUND - 1) / ROUND) + i / ROUND + 1
  }

  lemma CallsToBound(n: nat, c: nat, i: nat)
    requires c <= n && i < n
    ensures CallsTo(n, c, i) <= (n + ROUND - 1) / ROUND + 1
  {
  }

  /** Where the entry with number nid stands. */
  ghost predicate At(t: Table, i: nat, nid: nat) {
    i < |t.pool| && t.pool[i].nid == nid
  }

  lemma VisitMoves(t: Table, s: Setting, now: int, i: nat, nid: nat)
    requires t.cursor < |t.pool| && At(t, i, nid) && i != t.cursor
    ensures var next, gone := Visit(t, s, now), DoSomething(s, now, t.pool[t.cursor]).0;
      && (if gone then |next.pool| == |t.pool| - 1 && next.cursor == t.cursor
          else |next.pool| == |t.pool| && next.cursor == t.cursor + 1)
      && At(next, if i > t.cursor && gone then i - 1 else i, nid) && t.log <= next.log
  {
  }

  /** n visits later, closed of them with an entry closed: r has the entry that was at i in t. */
  ghost predicate Moved(t: Table, r: Table, n: nat, closed: nat, i: nat, nid: nat) {
    && closed <= n && |r.pool| == |t.pool| - closed && r.cursor == t.cursor + n - closed
    && (i < t.cursor || i >= t.cursor + n)
    && At(r, if i < t.cursor then i else i - closed, nid)
    && t.log <= r.log
  }

  lemma MovedTwice(t: Table, next: Table, r: Table, n: nat, gone: nat, more: nat, i: nat, nid: nat)
    requires Moved(t, next, 1, gone, i, nid)
    requires Moved(next, r, n, more, if i < t.cursor then i else i - gone, nid)
    requires i < t.cursor || i >= t.cursor + n + 1
    ensures Moved(t, r, n + 1, gone + more, i, nid)
  {
  }

  /** After a run of visits that does not reach entry i, what lies where. */
  lemma {:induction false} VisitsMove(t: Table, s: Setting, now: int, n: nat, i: nat, nid: nat) returns (closed: nat)
    requires t.cursor <= |t.pool| && At(t, i, nid) && n <= |t.pool| - t.cursor
    requires i < t.cursor || i >= t.cursor + n
    ensures Moved(t, Visits(t, s, now, n), n, closed, i, nid)
    decreases n
  {
    if n == 0 {
      closed := 0;
    } else {
      var next := Visit(t, s, now);
      var gone := if DoSomething(s, now, t.pool[t.cursor]).0 then 1 else 0;
      VisitMoves(t, s, now, i, nid);
      var more := VisitsMove(next, s, now, n - 1, if i < t.cursor then i else i - gone, nid);
      closed := gone + more;
      MovedTwice(t, next, Visits(next, s, now, n - 1), n - 1, gone, more, i, nid);
    }
  }

  /** The log has grown, and nid is among what is new. */
  ghost predicate VisitedSince(before: seq<nat>, log: seq<nat>, nid: nat) {
    before <= log && nid in log[|before|..]
  }

  lemma VisitStays(a: seq<nat>, b: seq<nat>, c: seq<nat>, nid: nat)
    requires a <= b <= c
    ensures VisitedSince(a, b, nid) || VisitedSince(b, c, nid) ==> VisitedSince(a, c, nid)
  {
    if VisitedSince(a, b, nid) {
      var i :| 0 <= i < |b[|a|..]| && b[|a|..][i] == nid;
      assert c[|a|..][i] == nid;
    } else if VisitedSince(b, c, nid) {
      var i :| 0 <= i < |c[|b|..]| && c[|b|..][i] == nid;
      assert c[|a|..][|b| - |a| + i] == nid;
    }
  }

  lemma {:induction false} VisitsReach(t: Table, s: Setting, now: int, n: nat, i: nat, nid: nat)
    requires t.cursor <= |t.pool| && At(t, i, nid) && t.cursor <= i < t.cursor + n
    ensures VisitedSince(t.log, Visits(t, s, now, n).log, nid)
    decreases n
  {
    var next := Visit(t, s, now);
    var gone := DoSomething(s, now, t.pool[t.cursor]).0;
    if i == t.cursor {
      VisitLogs(t, s, now);
      LogGrows(next, s, now, n - 1);
    } else {
      VisitMoves(t, s, now, i, nid);
      VisitsReach(next, s, now, n - 1, if gone then i - 1 else i, nid);
    }
    VisitStays(t.log, next.log, Visits(next, s, now, n - 1).log, nid);
  }

  lemma VisitLogs(t: Table, s: Setting, now: int)
    requires t.cursor < |t.pool|
    ensures VisitedSince(t.log, Visit(t, s, now).log, t.pool[t.cursor].nid)
  {
    assert Visit(t, s, now).log[|t.log|..] == [t.pool[t.cursor].nid];
  }

  lemma {:induction false} LogGrows(t: Table, s: Setting, now: int, n: nat)
    requires t.cursor <= |t.pool|
    ensures t.log <= Visits(t, s, now, n).log
    decreases n
  {
    if n > 0 && t.cursor < |t.pool| {
      LogGrows(Visit(t, s, now), s, now, n - 1);
    }
  }

  lemma {:induction false} ShorterVisits(t: Table, s: Setting, now: int, n: nat)
    requires t.cursor <= |t.pool| && |t.pool| - t.cursor <= n
    ensures Visits(t, s, now, n) == Visits(t, s, now, |t.pool| - t.cursor)
    decreases n
  {
    if n > 0 && t.cursor < |t.pool| {
      ShorterVisits(Visit(t, s, now), s, now, n - 1);
    }
  }

  /** The distance in calls, before and after m visits that closed some of the entries. */
  lemma DistanceShrinks(n: nat, c: nat, i: nat, m: nat, closed: nat)
    requires c <= n && i < n && m == (if n - c <= ROUND then n - c else ROUND) && closed <= m
    requires i < c || i >= c + ROUND
    ensures c + m < n ==> CallsTo(n - closed, c + m - closed, if i < c then i else i - closed) == CallsTo(n, c, i) - 1
    ensures c + m == n ==> i < c && i < n - closed && CallsTo(n - closed, 0, i) == CallsTo(n, c, i) - 1
  {
    if i >= c + ROUND {
      assert (i - c - ROUND) / ROUND == (i - c) / ROUND - 1;
    } else if c + m < n {
      assert (n - c - ROUND + ROUND - 1) / ROUND == (n - c + ROUND - 1) / ROUND - 1;
    }
  }

  /** A call that does not visit the connection brings it one call nearer. */
  lemma WalkPassesBy(t: Table, s: Setting, now: int, i: nat, nid: nat) returns (j: nat)
    requires t.cursor <= |t.pool| && At(t, i, nid) && !(t.cursor <= i < t.cursor + ROUND)
    ensures At(Walk(t, s, now), j, nid)
    ensures CallsTo(|Walk(t, s, now).pool|, Walk(t, s, now).cursor, j) < CallsTo(|t.pool|, t.cursor, i)
  {
    var c, n := t.cursor, |t.pool|;
    var m := if n - c <= ROUND then n - c else ROUND;
    if n - c <= ROUND {
      ShorterVisits(t, s, now, ROUND);
    }
    var closed := VisitsMove(t, s, now, m, i, nid);
    DistanceShrinks(n, c, i, m, closed);
    j := if i < c then i else i - closed;
  }

  /** One call either visits the connection or brings it one call nearer. */
  lemma WalkComesCloser(t: Table, s: Setting, now: int, i: nat, nid: nat) returns (j: nat)
    requires t.cursor <= |t.pool| && At(t, i, nid)
    ensures VisitedSince(t.log, Walk(t, s, now).log, nid)
      || (At(Walk(t, s, now), j, nid)
          && CallsTo(|Walk(t, s, now).pool|, Walk(t, s, now).cursor, j) < CallsTo(|t.pool|, t.cursor, i))
  {
    if t.cursor <= i < t.cursor + ROUND {
      VisitsReach(t, s, now, ROUND, i, nid);
      j := 0;
    } else {
      j := WalkPassesBy(t, s, now, i, nid);
    }
  }

  lemma RemoveComesNoFarther(t: Table, fd: int, i: nat, nid: nat) returns (j: nat)
    requires t.cursor <= |t.pool| && At(t, i, nid) && IndexOfFd(t.pool, fd) != i
    ensures At(Remove(t, fd), j, nid)
    ensures CallsTo(|Remove(t, fd).pool|, Remove(t, fd).cursor, j) <= CallsTo(|t.pool|, t.cursor, i)
  {
    var k := IndexOfFd(t.pool, fd);
    j := if k < i then i - 1 else i;
  }

  lemma FeedComesNoFarther(t: Table, fd: int, window: seq<byte>, now: int, i: nat, nid: nat)
    requires At(t, i, nid)
    ensures At(Feed(t, fd, window, now), i, nid) && Feed(t, fd, window, now).log == t.log
  {
  }

  /** No connection comes in, and this one is not taken out. */
  ghost predicate Spared(t: Table, s: Setting, ops: seq<Op>, nid: nat)
    requires t.cursor <= |t.pool|
    decreases |ops|
  {
    ops == [] ||
    (&& !ops[0].AddOp?
     && (ops[0].RemoveOp? ==> var k := IndexOfFd(t.pool, ops[0].fd); k < |t.pool| ==> t.pool[k].nid != nid)
     && Spared(Apply(t, s, ops[0]), s, ops[1..], nid))
  }

  lemma {:induction false} VisitedWithin(t: Table, s: Setting, ops: seq<Op>, i: nat, nid: nat)
    requires t.cursor <= |t.pool| && At(t, i, nid) && Spared(t, s, ops, nid)
    requires Walks(ops) >= CallsTo(|t.pool|, t.cursor, i)
    ensures VisitedSince(t.log, RunOps(t, s, ops).log, nid)
    decreases |ops|
  {
    var next := Apply(t, s, ops[0]);
    RunLogGrows(next, s, ops[1..]);
    match ops[0] {
      case WalkOp(now) =>
        var j := WalkComesCloser(t, s, now, i, nid);
        LogGrows(t, s, now, ROUND);
        if !VisitedSince(t.log, next.log, nid) {
          VisitedWithin(next, s, ops[1..], j, nid);
        }
        VisitStays(t.log, next.log, RunOps(next, s, ops[1..]).log, nid);
      case TrafficOp(fd, window, now) =>
        FeedComesNoFarther(t, fd, window, now, i, nid);
        VisitedWithin(next, s, ops[1..], i, nid);
      case RemoveOp(fd) =>
        var j := RemoveComesNoFarther(t, fd, i, nid);
        VisitedWithin(next, s, ops[1..], j, nid);
    }
  }

  lemma {:induction false} RunLogGrows(t: Table, s: Setting, ops: seq<Op>)
    requires t.cursor <= |t.pool|
    ensures t.log <= RunOps(t, s, ops).log
    decreases |ops|
  {
    if ops != [] {
      if ops[0].WalkOp? {
        LogGrows(t, s, ops[0].now, ROUND);
      }
      RunLogGrows(Apply(t, s, ops[0]), s, ops[1..]);
    }
  }

  /** Without insertions, whatever else is removed meanwhile, every connection in a pool of n is
      visited within n / 1024, rounded up, plus one calls, from any cursor. */
  lemma EveryoneIsVisited(t: Table, s: Setting, ops: seq<Op>, i: nat)
    requires t.cursor <= |t.pool| && i < |t.pool| && Spared(t, s, ops, t.pool[i].nid)
    requires Walks(ops) >= (|t.pool| + ROUND - 1) / ROUND + 1
    ensures VisitedSince(t.log, RunOps(t, s, ops).log, t.pool[i].nid)
  {
    CallsToBound(|t.pool|, t.cursor, i);
    VisitedWithin(t, s, ops, i, t.pool[i].nid);
  }

  // ---------- the rate limits over a run ----------

  function Count(log: seq<nat>, nid: nat): nat {
    if log == [] then 0 else (if log[|log| - 1] == nid then 1 else 0) + Count(log[..|log| - 1], nid)
  }

  lemma CountSnoc(log: seq<nat>, n: nat, nid: nat)
    ensures Count(log + [n], nid) == Count(log, nid) + if n == nid then 1 else 0
  {
    assert (log + [n])[..|log|] == log;
  }

  lemma {:induction false} CountNone(log: seq<nat>, nid: nat)
    requires nid !in log
    ensures Count(log, nid) == 0
    decreases |log|
  {
    if log != [] {
      assert log[|log| - 1] in log;
      CountNone(log[..|log| - 1], nid);
    }
  }

  /** One limit for each of k visits. */
  function Allowance(k: nat, limit: int): int {
    if k == 0 then 0 else Allowance(k - 1, limit) + limit
  }

  lemma {:induction false} AllowanceIs(k: nat, limit: int)
    ensures Allowance(k, limit) == k * limit
    decreases k
  {
    if k > 0 {
      AllowanceIs(k - 1, limit);
      assert k * limit == (k - 1) * limit + limit;
    }
  }

  /** Each limit that is on has its counter, which is what came in since the last visit, and
      everything up to that visit was within it. */
  ghost predicate Metered(t: Table, s: Setting, net: Net) {
    var l := LifeOf(t, net.nid);
    && l.visits == Count(t.log, net.nid) && net.lastActive == l.heard
    && (s.maxPkgSpeed > 0 ==> net.pkgs == l.newPackets && l.packets <= Allowance(l.visits, s.maxPkgSpeed))
    && (s.maxTrafficSpeed > 0 ==> net.bytes == l.newOctets && l.octets <= Allowance(l.visits, s.maxTrafficSpeed))
  }

  ghost predicate AllMetered(t: Table, s: Setting) {
    && Sweeping(t)
    && (forall n :: n in t.log ==> n < t.seed)
    && (forall i :: 0 <= i < |t.pool| ==> Metered(t, s, t.pool[i]))
  }

  lemma VisitedIsMetered(t: Table, s: Setting, now: int, net: Net)
    requires t.cursor < |t.pool| && net == t.pool[t.cursor]
    requires Metered(t, s, net) && !DoSomething(s, now, net).0
    ensures Metered(Visit(t, s, now), s, DoSomething(s, now, net).1)
  {
    CountSnoc(t.log, net.nid, net.nid);
  }

  lemma OthersStayMetered(t: Table, r: Table, s: Setting, net: Net)
    requires Metered(t, s, net) && LifeOf(r, net.nid) == LifeOf(t, net.nid)
    requires Count(r.log, net.nid) == Count(t.log, net.nid)
    ensures Metered(r, s, net)
  {
  }

  lemma VisitKeepsMetered(t: Table, s: Setting, now: int)
    requires AllMetered(t, s) && t.cursor < |t.pool|
    ensures AllMetered(Visit(t, s, now), s)
  {
    var c := t.cursor;
    var r := Visit(t, s, now);
    var (closed, net) := DoSomething(s, now, t.pool[c]);
    VisitKeepsSweeping(t, s, now);
    forall i | 0 <= i < |r.pool| ensures Metered(r, s, r.pool[i]) {
      if i == c && !closed {
        VisitedIsMetered(t, s, now, t.pool[c]);
      } else {
        var j := if closed && i >= c then i + 1 else i;
        assert r.pool[i] == t.pool[j] && t.pool[j].nid != t.pool[c].nid;
        CountSnoc(t.log, net.nid, t.pool[j].nid);
        OthersStayMetered(t, r, s, t.pool[j]);
      }
    }
  }

  lemma VisitsKeepMetered(t: Table, s: Setting, now: int, n: nat)
    requires AllMetered(t, s)
    ensures AllMetered(Visits(t, s, now, n), s)
  {
    forall u: Table | u.cursor < |u.pool| && AllMetered(u, s) ensures AllMetered(Visit(u, s, now), s) {
      VisitKeepsMetered(u, s, now);
    }
    VisitsKeep((u: Table) => AllMetered(u, s), t, s, now, n);
  }

  lemma WalkKeepsMetered(t: Table, s: Setting, now: int)
    requires AllMetered(t, s)
    ensures AllMetered(Walk(t, s, now), s)
  {
    VisitsKeepMetered(t, s, now, ROUND);
    WalkKeepsSweeping(t, s, now);
    var v := Visits(t, s, now, ROUND);
    forall i | 0 <= i < |v.pool| ensures Metered(Wrap(v), s, v.pool[i]) {
      OthersStayMetered(v, Wrap(v), s, v.pool[i]);
    }
  }

  lemma RemoveKeepsMetered(t: Table, s: Setting, fd: int)
    requires AllMetered(t, s)
    ensures AllMetered(Remove(t, fd), s)
  {
    RemoveKeepsSweeping(t, fd);
    var r, k := Remove(t, fd), IndexOfFd(t.pool, fd);
    forall i | 0 <= i < |r.pool| ensures Metered(r, s, r.pool[i]) {
      OthersStayMetered(t, r, s, t.pool[if i < k then i else i + 1]);
    }
  }

  lemma AddKeepsMetered(t: Table, s: Setting, fd: int, place: nat, now: int)
    requires AllMetered(t, s)
    ensures AllMetered(Add(t, fd, place, now), s)
  {
    AddKeepsSweeping(t, fd, place, now);
    var r := Add(t, fd, place, now);
    var net := Net(fd, t.seed, 0, 0, now);
    CountNone(t.log, t.seed);
    assert Metered(r, s, net);
    forall i | 0 <= i < |r.pool| ensures Metered(r, s, r.pool[i]) {
      if r.pool[i] != net {
        assert r.pool[i] in t.pool;
        var j :| 0 <= j < |t.pool| && t.pool[j] == r.pool[i];
        OthersStayMetered(t, r, s, t.pool[j]);
      }
    }
  }

  lemma FeedKeepsMetered(t: Table, s: Setting, fd: int, window: seq<byte>, now: int)
    requires AllMetered(t, s)
    ensures AllMetered(Feed(t, fd, window, now), s)
  {
    FeedKeepsSweeping(t, fd, window, now);
    var r, k := Feed(t, fd, window, now), IndexOfFd(t.pool, fd);
    forall i | 0 <= i < |r.pool| ensures Metered(r, s, r.pool[i]) {
      assert Metered(t, s, t.pool[i]);
      if i != k && k < |t.pool| {
        assert t.pool[i].nid != t.pool[k].nid;
        OthersStayMetered(t, r, s, t.pool[i]);
      }
    }
  }

  lemma StepKeepsMetered(t: Table, s: Setting, op: Op)
    requires AllMetered(t, s)
    ensures AllMetered(Apply(t, s, op), s)
  {
    match op
    case WalkOp(now) => WalkKeepsMetered(t, s, now);
    case RemoveOp(fd) => RemoveKeepsMetered(t, s, fd);
    case AddOp(fd, place, now) => AddKeepsMetered(t, s, fd, place, now);
    case TrafficOp(fd, window, now) => FeedKeepsMetered(t, s, fd, window, now);
  }

  lemma {:induction false} RunKeepsMetered(t: Table, s: Setting, ops: seq<Op>)
    requires AllMetered(t, s)
    ensures AllMetered(RunOps(t, s, ops), s)
    decreases |ops|
  {
    if ops != [] {
      StepKeepsMetered(t, s, ops[0]);
      RunKeepsMetered(Apply(t, s, ops[0]), s, ops[1..]);
    }
  }

  /** After any history: a connection still in the table that has been visited k times had by its
      k-th visit delivered at most k times each limit that is on, headers included in the octets,
      and the limit's counter is what it has delivered since. */
  lemma RateBound(s: Setting, ops: seq<Op>, i: nat)
    requires i < |RunOps(EMPTY, s, ops).pool|
    ensures var t := RunOps(EMPTY, s, ops);
      var net, l := t.pool[i], LifeOf(t, t.pool[i].nid);
      var k := Count(t.log, net.nid);
      && (s.maxPkgSpeed > 0 ==> l.packets <= k * s.maxPkgSpeed && net.pkgs == l.newPackets)
      && (s.maxTrafficSpeed > 0 ==> l.octets <= k * s.maxTrafficSpeed && net.bytes == l.newOctets)
  {
    RunKeepsMetered(EMPTY, s, ops);
    var t := RunOps(EMPTY, s, ops);
    assert Metered(t, s, t.pool[i]);
    AllowanceIs(Count(t.log, t.pool[i].nid), s.maxPkgSpeed);
    AllowanceIs(Count(t.log, t.pool[i].nid), s.maxTrafficSpeed);
  }

  // ---------- who is closed ----------

  /** Silent for longer than it may be, or more delivered since the last visit than a limit allows;
      a limit of zero or less is off. */
  predicate Overdue(s: Setting, now: int, l: Life) {
    || (s.maxIdle > 0 && now - l.heard > s.maxIdle)
    || (s.maxPkgSpeed > 0 && l.newPackets > s.maxPkgSpeed)
    || (s.maxTrafficSpeed > 0 && l.newOctets > s.maxTrafficSpeed)
  }

  /** The counters and the clock of a connection are those of its life. */
  predicate Told(s: Setting, net: Net, l: Life) {
    && net.lastActive == l.heard
    && (s.maxPkgSpeed > 0 ==> net.pkgs == l.newPackets)
    && (s.maxTrafficSpeed > 0 ==> net.bytes == l.newOctets)
  }

  /** A visit takes the connection at the cursor out exactly when it is overdue; otherwise it only
      restarts the counters of the limits that are on.  Nothing else in the pool changes. */
  lemma VisitClosesExactly(t: Table, s: Setting, now: int)
    requires t.cursor < |t.pool| && DistinctNids(t.pool)
    requires Told(s, t.pool[t.cursor], LifeOf(t, t.pool[t.cursor].nid))
    ensures var c, net, r := t.cursor, t.pool[t.cursor], Visit(t, s, now);
      && (net.nid !in Nids(r.pool) <==> Overdue(s, now, LifeOf(t, net.nid)))
      && r.pool == t.pool[..c] + (if Overdue(s, now, LifeOf(t, net.nid)) then [] else [Restarted(s, net)]) + t.pool[c + 1..]
  {
    var c, net := t.cursor, t.pool[t.cursor];
    NotAmongOthers(t.pool, c);
    if !Overdue(s, now, LifeOf(t, net.nid)) {
      StillAmong(t.pool, c, Restarted(s, net));
    }
  }

  lemma NotAmongOthers(pool: seq<Net>, c: nat)
    requires c < |pool| && DistinctNids(pool)
    ensures pool[..c] + [] + pool[c + 1..] == pool[..c] + pool[c + 1..]
    ensures pool[c].nid !in Nids(pool[..c] + pool[c + 1..])
  {
  }

  lemma StillAmong(pool: seq<Net>, c: nat, net: Net)
    requires c < |pool|
    ensures pool[c := net] == pool[..c] + [net] + pool[c + 1..] && net.nid in Nids(pool[c := net])
  {
    assert pool[c := net][c] in pool[c := net];
  }

  /** After any history. */
  lemma VisitsCloseOnlyOverdue(s: Setting, ops: seq<Op>, now: int)
    requires var t := RunOps(EMPTY, s, ops); t.cursor < |t.pool|
    ensures var t := RunOps(EMPTY, s, ops);
      var c, net, l := t.cursor, t.pool[t.cursor], LifeOf(t, t.pool[t.cursor].nid);
      && (net.nid !in Nids(Visit(t, s, now).pool) <==> Overdue(s, now, l))
      && Visit(t, s, now).pool == t.pool[..c] + (if Overdue(s, now, l) then [] else [Restarted(s, net)]) + t.pool[c + 1..]
  {
    RunKeepsMetered(EMPTY, s, ops);
    var t := RunOps(EMPTY, s, ops);
    assert Metered(t, s, t.pool[t.cursor]);
    VisitClosesExactly(t, s, now);
  }

  function Restarted(s: Setting, net: Net): Net {
    net.(pkgs := if s.maxPkgSpeed > 0 then 0 else net.pkgs, bytes := if s.maxTrafficSpeed > 0 then 0 else net.bytes)
  }

  lemma {:induction false} VisitsOnlyTakeOut(t: Table, s: Setting, now: int, n: nat)
    requires t.cursor <= |t.pool|
    ensures Nids(Visits(t, s, now, n).pool) <= Nids(t.pool)
    decreases n
  {
    if n > 0 && t.cursor < |t.pool| {
      VisitOnlyTakesOut(t, s, now);
      VisitsOnlyTakeOut(Visit(t, s, now), s, now, n - 1);
    }
  }

  lemma VisitOnlyTakesOut(t: Table, s: Setting, now: int)
    requires t.cursor < |t.pool|
    ensures Nids(Visit(t, s, now).pool) <= Nids(t.pool)
  {
    var r := Visit(t, s, now);
    forall m | m in r.pool ensures m.nid in Nids(t.pool) {
      var i :| 0 <= i < |r.pool| && r.pool[i] == m;
      var j := if |r.pool| < |t.pool| && i >= t.cursor then i + 1 else i;
      assert r.pool[i].nid == t.pool[j].nid && t.pool[j] in t.pool;
    }
  }

  /** Among the next n visits is one to entry i, which is overdue. */
  predicate DueWithin(t: Table, s: Setting, now: int, n: nat, i: nat, nid: nat) {
    t.cursor <= i < t.cursor + n && Overdue(s, now, LifeOf(t, nid))
  }

  /** Of n visits, those that reach entry i find it as it is now. */
  lemma {:induction false} VisitsCloseExactly(t: Table, s: Setting, now: int, n: nat, i: nat, nid: nat)
    requires t.cursor <= |t.pool| && DistinctNids(t.pool) && At(t, i, nid) && Told(s, t.pool[i], LifeOf(t, nid))
    ensures nid !in Nids(Visits(t, s, now, n).pool) <==> DueWithin(t, s, now, n, i, nid)
    decreases n
  {
    if n == 0 || t.cursor == |t.pool| {
      assert t.pool[i] in t.pool;
    } else if i == t.cursor {
      DecidedHere(t, s, now, n - 1);
    } else {
      var j := PassedBy(t, s, now, n, i, nid);
      VisitsCloseExactly(Visit(t, s, now), s, now, n - 1, j, nid);
    }
  }

  /** What the visit to an entry decides, the visits after it leave so. */
  lemma DecidedHere(t: Table, s: Setting, now: int, more: nat)
    requires t.cursor < |t.pool| && DistinctNids(t.pool)
    requires Told(s, t.pool[t.cursor], LifeOf(t, t.pool[t.cursor].nid))
    ensures var nid := t.pool[t.cursor].nid;
      nid !in Nids(Visits(Visit(t, s, now), s, now, more).pool) <==> Overdue(s, now, LifeOf(t, nid))
  {
    var i, nid := t.cursor, t.pool[t.cursor].nid;
    VisitClosesExactly(t, s, now);
    if Overdue(s, now, LifeOf(t, nid)) {
      VisitsOnlyTakeOut(Visit(t, s, now), s, now, more);
    } else {
      BehindStays(Visit(t, s, now), s, now, more, i, nid);
    }
  }

  lemma BehindStays(t: Table, s: Setting, now: int, n: nat, i: nat, nid: nat)
    requires t.cursor <= |t.pool| && At(t, i, nid) && i < t.cursor
    ensures nid in Nids(Visits(t, s, now, n).pool)
  {
    var m := if n <= |t.pool| - t.cursor then n else |t.pool| - t.cursor;
    if m < n {
      ShorterVisits(t, s, now, n);
    }
    var closed := VisitsMove(t, s, now, m, i, nid);
    assert Visits(t, s, now, n).pool[i] in Visits(t, s, now, n).pool;
  }

  /** A visit to another entry leaves this one as it is and as far ahead, one visit fewer. */
  lemma PassedBy(t: Table, s: Setting, now: int, n: nat, i: nat, nid: nat) returns (j: nat)
    requires DistinctNids(t.pool) && At(t, i, nid) && t.cursor < |t.pool| && i != t.cursor && n > 0
    ensures var next := Visit(t, s, now);
      && DistinctNids(next.pool) && At(next, j, nid) && next.pool[j] == t.pool[i] && LifeOf(next, nid) == LifeOf(t, nid)
      && (DueWithin(next, s, now, n - 1, j, nid) <==> DueWithin(t, s, now, n, i, nid))
  {
    VisitMoves(t, s, now, i, nid);
    VisitKeepsNids(t, s, now);
    assert t.pool[i].nid != t.pool[t.cursor].nid;
    j := if i > t.cursor && DoSomething(s, now, t.pool[t.cursor]).0 then i - 1 else i;
  }

  lemma VisitKeepsNids(t: Table, s: Setting, now: int)
    requires t.cursor < |t.pool| && DistinctNids(t.pool)
    ensures DistinctNids(Visit(t, s, now).pool)
  {
    var r, c := Visit(t, s, now), t.cursor;
    if DoSomething(s, now, t.pool[c]).0 {
      assert forall i :: 0 <= i < |r.pool| ==> r.pool[i] == Dropped(t.pool, c, i);
    }
  }

  /** After any history a call takes a connection out exactly when it is among the next 1024 from
      the cursor and overdue. */
  lemma WalkClosesExactly(s: Setting, ops: seq<Op>, now: int, i: nat)
    requires i < |RunOps(EMPTY, s, ops).pool|
    ensures var t := RunOps(EMPTY, s, ops);
      var nid := t.pool[i].nid;
      nid !in Nids(Walk(t, s, now).pool) <==> DueWithin(t, s, now, ROUND, i, nid)
  {
    RunKeepsMetered(EMPTY, s, ops);
    var t := RunOps(EMPTY, s, ops);
    assert Metered(t, s, t.pool[i]);
    VisitsCloseExactly(t, s, now, ROUND, i, t.pool[i].nid);
  }

  /** No call finds the connection overdue, and neither its closing nor another connect on its
      descriptor takes it out. */
  ghost predicate Moderate(t: Table, s: Setting, ops: seq<Op>, nid: nat)
    requires t.cursor <= |t.pool|
    decreases |ops|
  {
    ops == [] ||
    (&& (ops[0].WalkOp? ==> !Overdue(s, ops[0].now, LifeOf(t, nid)))
     && (ops[0].RemoveOp? ==> NotOn(t, ops[0].fd, nid))
     && (ops[0].AddOp? ==> NotOn(t, ops[0].newFd, nid))
     && Moderate(Apply(t, s, ops[0]), s, ops[1..], nid))
  }

  predicate NotOn(t: Table, fd: int, nid: nat) {
    var k := IndexOfFd(t.pool, fd);
    k < |t.pool| ==> t.pool[k].nid != nid
  }

  /** Then it is never taken out, whatever happens to the others. */
  lemma {:induction false} ModerateStays(t: Table, s: Setting, ops: seq<Op>, nid: nat)
    requires AllMetered(t, s) && nid in Nids(t.pool) && Moderate(t, s, ops, nid)
    ensures nid in Nids(RunOps(t, s, ops).pool)
    decreases |ops|
  {
    if ops != [] {
      StepKeepsMetered(t, s, ops[0]);
      ModerateStep(t, s, ops[0], nid);
      ModerateStays(Apply(t, s, ops[0]), s, ops[1..], nid);
    }
  }

  lemma ModerateStep(t: Table, s: Setting, op: Op, nid: nat)
    requires AllMetered(t, s) && nid in Nids(t.pool)
    requires op.WalkOp? ==> !Overdue(s, op.now, LifeOf(t, nid))
    requires op.RemoveOp? ==> NotOn(t, op.fd, nid)
    requires op.AddOp? ==> NotOn(t, op.newFd, nid)
    ensures nid in Nids(Apply(t, s, op).pool)
  {
    var i := WhereIs(t, nid);
    assert Metered(t, s, t.pool[i]);
    match op
    case WalkOp(now) => VisitsCloseExactly(t, s, now, ROUND, i, nid);
    case RemoveOp(fd) => RemoveLeavesOthers(t, fd, i);
    case AddOp(fd, place, now) => AddLeavesOthers(t, fd, place, now, i);
    case TrafficOp(fd, window, now) => OthersStayIn(t, Feed(t, fd, window, now), i, i);
  }

  lemma WhereIs(t: Table, nid: nat) returns (i: nat)
    requires nid in Nids(t.pool)
    ensures At(t, i, nid)
  {
    var net :| net in t.pool && net.nid == nid;
    i :| 0 <= i < |t.pool| && t.pool[i] == net;
  }

  lemma RemoveLeavesOthers(t: Table, fd: int, i: nat)
    requires i < |t.pool| && NotOn(t, fd, t.pool[i].nid)
    ensures t.pool[i].nid in Nids(Remove(t, fd).pool)
  {
    OthersStayIn(t, Remove(t, fd), i, if IndexOfFd(t.pool, fd) < i then i - 1 else i);
  }

  lemma OthersStayIn(t: Table, r: Table, i: nat, j: nat)
    requires i < |t.pool| && j < |r.pool| && r.pool[j].nid == t.pool[i].nid
    ensures t.pool[i].nid in Nids(r.pool)
  {
    assert r.pool[j] in r.pool;
  }

  lemma AddLeavesOthers(t: Table, fd: int, place: nat, now: int, i: nat)
    requires t.cursor <= |t.pool| && i < |t.pool| && NotOn(t, fd, t.pool[i].nid)
    ensures t.pool[i].nid in Nids(Add(t, fd, place, now).pool)
  {
    var k := IndexOfFd(t.pool, fd);
    var p := if place <= |t.pool| then place else |t.pool|;
    OthersStayIn(t, Add(t, fd, place, now), i, if k == |t.pool| && p <= i then i + 1 else i);
  }

  /** After any history, for any further one: a connection that stays within the limits stays. */
  lemma WithinLimitsStays(s: Setting, before: seq<Op>, ops: seq<Op>, nid: nat)
    requires nid in Nids(RunOps(EMPTY, s, before).pool) && Moderate(RunOps(EMPTY, s, before), s, ops, nid)
    ensures nid in Nids(RunOps(RunOps(EMPTY, s, before), s, ops).pool)
  {
    RunKeepsMetered(EMPTY, s, before);
    ModerateStays(RunOps(EMPTY, s, before), s, ops, nid);
  }

  /** Every call finds the connection overdue, and none comes in. */
  ghost predicate Hopeless(t: Table, s: Setting, ops: seq<Op>, nid: nat)
    requires t.cursor <= |t.pool|
    decreases |ops|
  {
    ops == [] ||
    (&& !ops[0].AddOp?
     && (ops[0].WalkOp? ==> Overdue(s, ops[0].now, LifeOf(t, nid)))
     && Hopeless(Apply(t, s, ops[0]), s, ops[1..], nid))
  }

  lemma {:induction false} GoneForGood(t: Table, s: Setting, ops: seq<Op>, nid: nat)
    requires t.cursor <= |t.pool| && nid !in Nids(t.pool) && Hopeless(t, s, ops, nid)
    ensures nid !in Nids(RunOps(t, s, ops).pool)
    decreases |ops|
  {
    if ops != [] {
      OnlyTakesOut(t, s, ops[0]);
      GoneForGood(Apply(t, s, ops[0]), s, ops[1..], nid);
    }
  }

  lemma OnlyTakesOut(t: Table, s: Setting, op: Op)
    requires t.cursor <= |t.pool| && !op.AddOp?
    ensures Nids(Apply(t, s, op).pool) <= Nids(t.pool)
  {
    var r := Apply(t, s, op);
    match op
    case WalkOp(now) => VisitsOnlyTakeOut(t, s, now, ROUND);
    case RemoveOp(fd) =>
    case TrafficOp(fd, window, at) =>
      forall n | n in r.pool ensures n.nid in Nids(t.pool) {
        var i :| 0 <= i < |r.pool| && r.pool[i] == n;
        assert n.nid == t.pool[i].nid && t.pool[i] in t.pool;
      }
  }

  lemma {:induction false} ClosedWithin(t: Table, s: Setting, ops: seq<Op>, i: nat, nid: nat)
    requires AllMetered(t, s) && At(t, i, nid) && Hopeless(t, s, ops, nid)
    requires Walks(ops) >= CallsTo(|t.pool|, t.cursor, i)
    ensures nid !in Nids(RunOps(t, s, ops).pool)
    decreases |ops|
  {
    var j, gone := OneStepCloser(t, s, ops[0], i, nid);
    if gone {
      GoneForGood(Apply(t, s, ops[0]), s, ops[1..], nid);
    } else {
      StepKeepsMetered(t, s, ops[0]);
      ClosedWithin(Apply(t, s, ops[0]), s, ops[1..], j, nid);
    }
  }

  lemma OneStepCloser(t: Table, s: Setting, op: Op, i: nat, nid: nat) returns (j: nat, gone: bool)
    requires AllMetered(t, s) && At(t, i, nid) && !op.AddOp? && (op.WalkOp? ==> Overdue(s, op.now, LifeOf(t, nid)))
    ensures var next := Apply(t, s, op);
      if gone then nid !in Nids(next.pool)
      else
        && At(next, j, nid)
        && CallsTo(|next.pool|, next.cursor, j) + (if op.WalkOp? then 1 else 0) <= CallsTo(|t.pool|, t.cursor, i)
  {
    gone, j := false, i;
    assert Metered(t, s, t.pool[i]);
    match op
    case WalkOp(now) =>
      VisitsCloseExactly(t, s, now, ROUND, i, nid);
      gone := t.cursor <= i < t.cursor + ROUND;
      if !gone {
        j := WalkPassesBy(t, s, now, i, nid);
      }
    case TrafficOp(fd, window, now) => FeedComesNoFarther(t, fd, window, now, i, nid);
    case RemoveOp(fd) =>
      gone := IndexOfFd(t.pool, fd) == i;
      if gone {
        RemovedIsGone(t, fd, i);
      } else {
        j := RemoveComesNoFarther(t, fd, i, nid);
      }
  }

  lemma RemovedIsGone(t: Table, fd: int, i: nat)
    requires Sweeping(t) && i < |t.pool| && IndexOfFd(t.pool, fd) == i
    ensures t.pool[i].nid !in Nids(Remove(t, fd).pool)
  {
    var r := Remove(t, fd);
    forall n | n in r.pool ensures n.nid != t.pool[i].nid {
      var j :| 0 <= j < |r.pool| && r.pool[j] == n;
      assert r.pool[j] == Dropped(t.pool, i, j);
    }
  }

  /** From any cursor, an overdue connection is out within as many calls as it takes to visit all. */
  lemma OverdueIsClosed(s: Setting, before: seq<Op>, ops: seq<Op>, i: nat)
    requires i < |RunOps(EMPTY, s, before).pool|
    requires var t := RunOps(EMPTY, s, before);
      Hopeless(t, s, ops, t.pool[i].nid) && Walks(ops) >= (|t.pool| + ROUND - 1) / ROUND + 1
    ensures var t := RunOps(EMPTY, s, before); t.pool[i].nid !in Nids(RunOps(t, s, ops).pool)
  {
    RunKeepsMetered(EMPTY, s, before);
    var t := RunOps(EMPTY, s, before);
    CallsToBound(|t.pool|, t.cursor, i);
    ClosedWithin(t, s, ops, i, t.pool[i].nid);
  }

  // ---------- the octets behind the byte counter ----------

  /** The receive buffer holds a first part of a stream of written frames. */
  ghost predicate Written(window: seq<byte>) {
    exists ps :: Framing.Framable(ps) && window <= Framing.FrameAll(ps)
  }

  lemma {:induction false} PayloadOctetsOf(ps: seq<seq<byte>>)
    ensures PayloadOctets(Framing.Payloads(ps)) == Framing.TotalLength(ps)
    decreases |ps|
  {
    if ps != [] {
      PayloadOctetsOf(ps[1..]);
      assert Framing.Payloads(ps)[1..] == Framing.Payloads(ps[1..]);
    }
  }

  /** What a callback drains of a written stream is the payloads it delivers and four octets for
      each. */
  lemma DrainedIsPayloadPlusHeaders(window: seq<byte>)
    requires Written(window)
    ensures var ds := Framing.Deliveries(window);
      Framing.Used(window) == PayloadOctets(ds) + Framing.HEADER * |ds|
  {
    var ps :| Framing.Framable(ps) && window <= Framing.FrameAll(ps);
    Framing.CutsAtFrames(ps, window);
    var qs := ps[..Framing.Whole(ps, |window|)];
    PayloadOctetsOf(qs);
    Framing.TrafficIsPayloadPlusHeaders(qs);
    assert |window[..Framing.Used(window)]| == Framing.Used(window);
  }

  ghost predicate Headed(l: Life) {
    l.newOctets == l.newPayload + Framing.HEADER * l.newPackets
  }

  ghost predicate AllHeaded(t: Table) {
    forall nid :: nid in t.lives ==> Headed(t.lives[nid])
  }

  lemma VisitsKeepHeaded(t: Table, s: Setting, now: int, n: nat)
    requires t.cursor <= |t.pool| && AllHeaded(t)
    ensures AllHeaded(Visits(t, s, now, n))
  {
    VisitsKeep((u: Table) => AllHeaded(u), t, s, now, n);
  }

  lemma FeedKeepsHeaded(t: Table, fd: int, window: seq<byte>, now: int)
    requires AllHeaded(t) && Written(window)
    ensures AllHeaded(Feed(t, fd, window, now))
  {
    DrainedIsPayloadPlusHeaders(window);
    var k := IndexOfFd(t.pool, fd);
    if k < |t.pool| {
      assert Headed(LifeOf(t, t.pool[k].nid));
    }
  }

  lemma {:induction false} RunKeepsHeaded(t: Table, s: Setting, ops: seq<Op>)
    requires t.cursor <= |t.pool| && AllHeaded(t)
    requires forall k :: 0 <= k < |ops| && ops[k].TrafficOp? ==> Written(ops[k].window)
    ensures AllHeaded(RunOps(t, s, ops))
    decreases |ops|
  {
    if ops != [] {
      match ops[0] {
        case WalkOp(now) => VisitsKeepHeaded(t, s, now, ROUND);
        case RemoveOp(fd) =>
        case AddOp(fd, place, now) =>
        case TrafficOp(fd, window, now) => FeedKeepsHeaded(t, fd, window, now);
      }
      RunKeepsHeaded(Apply(t, s, ops[0]), s, ops[1..]);
    }
  }

  /** When all that comes in is written frames, cut anywhere, a connection's byte counter is always
      the payload it has delivered since its last visit plus four times its packet counter. */
  lemma ByteCounterIsPayloadPlusHeaders(s: Setting, ops: seq<Op>, i: nat)
    requires s.maxPkgSpeed > 0 && s.maxTrafficSpeed > 0 && i < |RunOps(EMPTY, s, ops).pool|
    requires forall k :: 0 <= k < |ops| && ops[k].TrafficOp? ==> Written(ops[k].window)
    ensures var t := RunOps(EMPTY, s, ops);
      var net := t.pool[i];
      net.bytes == LifeOf(t, net.nid).newPayload + Framing.HEADER * net.pkgs
  {
    RunKeepsHeaded(EMPTY, s, ops);
    RateBound(s, ops, i);
    var t := RunOps(EMPTY, s, ops);
    assert Headed(LifeOf(t, t.pool[i].nid));
  }
}
