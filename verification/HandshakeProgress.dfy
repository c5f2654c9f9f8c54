/** Progress of the handshake when nothing fails: whatever is delivered brings the clients closer
    to DONE, and when nothing more can be delivered each of them is DONE or hangs, because a
    handshake message was not sent whole or does not fit the connector's buffer.  What hangs, hangs
    for good. */
module HandshakeProgress {
  import opened Bytes
  import opened ClientMessages
  import C = ClientProtocol
  import S = ConnectorSession
  import A = ConnectorApp
  import K = SocketBuffer
  import T = Transport
  import opened HandshakeWorld
  import opened HandshakeConn
  import opened HandshakeBacks
  import opened Handshake

  // ---------- the measure ----------

  function Total<T>(f: T -> nat, xs: seq<T>): nat {
    if xs == [] then 0 else f(xs[0]) + Total(f, xs[1..])
  }

  lemma {:induction false} TotalUpdate<T>(f: T -> nat, xs: seq<T>, i: nat, x: T)
    requires i < |xs|
    ensures Total(f, xs[i := x]) == Total(f, xs) - f(xs[i]) + f(x)
    decreases i
  {
    if i == 0 {
      assert xs[0 := x][1..] == xs[1..];
    } else {
      TotalUpdate(f, xs[1..], i - 1, x);
      assert xs[i := x][1..] == xs[1..][i - 1 := x];
    }
  }

  lemma {:induction false} TotalAppend<T>(f: T -> nat, xs: seq<T>, x: T)
    ensures Total(f, xs + [x]) == Total(f, xs) + f(x)
    decreases |xs|
  {
    if xs == [] {
      assert [] + [x] == [x] && [x][1..] == [];
    } else {
      TotalAppend(f, xs[1..], x);
      assert (xs + [x])[1..] == xs[1..] + [x];
    }
  }

  function Taken(state: S.State): nat {
    match state
    case Init => 0
    case Auth => 1
    case Syning => 2
    case SynAck => 2
    case Ok => 2
  }

  function Answered(p: Phase): nat {
    match p
    case NoSyn => 0
    case SynSent(b) => 0
    case Asked(b) => 1
    case AckSent(b, s) => 2
    case AckDone(b, s) => 3
  }

  /** Handshake events still to come on a connection: nine in all. */
  function Rank(c: Conn): nat {
    var replies := if 0 <= c.got <= 3 then 3 - c.got else 0;
    (if c.hs >= 1 then 0 else 1) + (2 - Taken(c.session.state)) + replies + (3 - Answered(c.phase))
  }

  function ConnWeight(c: Conn): nat {
    8 * Rank(c) + 2 * |c.up| + 3 * |c.unsent| + 2 * |c.down|
  }

  function BackWeight(b: Back): nat {
    |b.toB| + 3 * |b.fromB|
  }

  function HolderWeight(h: Holder): nat {
    |h.client.recvq| + if h.conn.None? then 100 else 0
  }

  /** What is left to do: handshake events, weighted with the messages under way. */
  function Measure(w: World): nat {
    Total(ConnWeight, w.conns) + Total(BackWeight, w.backs) + Total(HolderWeight, w.clients)
  }

  // ---------- deliveries ----------

  /** No call on the socket fails; a send may still take only part of the buffer, or nothing. */
  predicate Smooth(env: C.Env) {
    env.dials && env.check.IsEstablished? && env.recv.Got? && env.push == K.NORMAL && !env.send.SendFailure?
  }

  /** The Update connects, or has a message to take. */
  predicate Productive(cl: C.Client, told: bool, n: nat) {
    || cl.state == C.TcpSyning
    || (cl.state in {C.KeySyning, C.Authing, C.Ready} && |cl.recvq| + n > 0)
    || (cl.state == C.Done && told && n > 0 && cl.sock in {K.NetConnected, K.NetSendFailed})
  }

  /** A step that connects a waiting client, delivers a message, or polls with something to take,
      and in which no call on a socket fails. */
  ghost predicate Delivery(w: World, a: Action) {
    Enabled(w, a) &&
    match a
    case Connect(i, fd) => w.clients[i].conn.None?
    case Update(i, told, env, n) => Smooth(env) && Productive(w.clients[i].client, told, n)
    case Pop(i) => w.clients[i].client.recvq != []
    case RecvFront(nid, frontOk, backOk) => frontOk && backOk
    case RecvBack(b, frontOk, backOk) => frontOk && backOk
    case Take(b) => true
    case Ack(b, nid, sid) => true
    case Push(i, data, env) => false
    case Close(nid) => false
    case Send(b, nid, fin, data) => false
  }

  // ---------- every delivery decreases the measure ----------

  lemma ConnectDecreases(w: World, i: nat, fd: nat)
    requires Inv(w) && Delivery(w, Connect(i, fd))
    ensures Measure(DoConnect(w, i, fd)) < Measure(w)
  {
    var v := DoConnect(w, i, fd);
    TotalAppend(ConnWeight, w.conns, v.conns[|w.conns|]);
    TotalUpdate(HolderWeight, w.clients, i, v.clients[i]);
  }

  /** A smooth call never fails the send of a handshake message. */
  lemma SmoothSend(t: C.Client, e: C.Env, m: CsMsg, next: C.State)
    requires t.sock == K.NetConnected && Smooth(e)
    ensures C.SendStep(t, e, m, next).code == K.NORMAL && C.Queued(e, m) == [m]
  {
  }

  /** What a smooth and productive Update does: it goes on, queues what its state has to send, and
      takes a message if it waited for one. */
  lemma UpdateMoves(cl: C.Client, c: Conn, told: bool, env: C.Env, n: nat, cap: nat)
    requires ConnOk(c, false, cap) && Linked(cl, c) && n <= |c.down| && Smooth(env) && Productive(cl, told, n)
    ensures var e := Receiving(c, env, n);
      var u := C.Step(cl, told, e);
      && u.ret >= 0 && |u.queued| == (if cl.state in {C.TcpSyning, C.KeySyning} then 1 else 0)
      && Taking(cl, told, e, c) == (if cl.state == C.TcpSyning then 0 else n)
      && |u.client.recvq| == |cl.recvq| + (if cl.state == C.TcpSyning then 0 else n)
                             - (if cl.state in {C.TcpSyning, C.Done} then 0 else 1)
  {
    var e := Receiving(c, env, n);
    NextIsExpected(cl, c, env, n, cap);
    match cl.state
    case TcpSyning =>
      var t := cl.(sock := K.NetConnected);
      SmoothSend(t, e, C.SynMsg(t), C.KeySyning);
      C.SendStepQueues(t, e, C.SynMsg(t), C.KeySyning);
    case KeySyning =>
      var t := C.TryAck(cl, e).0;
      SmoothSend(t, e, C.AuthMsg(t), C.Authing);
      C.SendStepQueues(t, e, C.AuthMsg(t), C.Authing);
    case Authing =>
    case Ready =>
    case Done =>
  }

  lemma UpdateLighter(cl: C.Client, c: Conn, told: bool, env: C.Env, n: nat, cap: nat)
    requires ConnOk(c, false, cap) && Linked(cl, c) && n <= |c.down| && Smooth(env) && Productive(cl, told, n) && cl.seqno >= 1
    ensures var e := Receiving(c, env, n);
      ConnWeight(Updated(cl, c, told, e)) + |C.Step(cl, told, e).client.recvq| < ConnWeight(c) + |cl.recvq|
  {
    var e := Receiving(c, env, n);
    UpdateMoves(cl, c, told, env, n, cap);
    UpdateKeeps(cl, c, false, told, env, n, cap);
    BufferGrows(cl, c, told, env, n, cap);
    Lighter(cl, c, C.Step(cl, told, e), Updated(cl, c, told, e), if cl.state == C.TcpSyning then 0 else n);
  }

  /** What goes out of the buffer gets lighter, what comes in weighs three. */
  lemma BufferGrows(cl: C.Client, c: Conn, told: bool, env: C.Env, n: nat, cap: nat)
    requires ConnOk(c, false, cap) && Linked(cl, c) && n <= |c.down| && Smooth(env) && Productive(cl, told, n)
    ensures var e := Receiving(c, env, n);
      var u := C.Step(cl, told, e);
      |cl.unsent| + |u.queued| == |u.wire| + |u.client.unsent|
  {
    var e := Receiving(c, env, n);
    var u := C.Step(cl, told, e);
    match cl.state
    case TcpSyning =>
      assert |cl.recvq + c.down| == 0;
      SynStep(cl, told, e);
      assert |cl.unsent + u.queued| == |u.wire + u.client.unsent|;
    case KeySyning =>
      NextReply(cl, c, env, n);
      KeyStep(cl, told, e);
      assert |cl.unsent + u.queued| == |u.wire + u.client.unsent|;
    case Authing =>
    case Ready =>
    case Done =>
  }

  lemma NextReply(cl: C.Client, c: Conn, env: C.Env, n: nat)
    requires Linked(cl, c) && n <= |c.down| && cl.state == C.KeySyning && c.k <= 3
    ensures var q := C.Received(cl, Receiving(c, env, n)); q != [] ==> q[0] == Reply(0)
  {
    var q := C.Received(cl, Receiving(c, env, n));
    Reassociate(cl, c, env, n);
    if q != [] {
      TakeOne(q, c.down[|C.Receive(cl, Receiving(c, env, n).recv).ms|..], c.got, c.k);
    }
  }

  lemma Lighter(cl: C.Client, c: Conn, u: C.Updated, d: Conn, j: nat)
    requires j <= |c.down| && d == AfterUpdate(c, cl, u, j) && InPhase(cl.state, c.hs, c.got) && cl.unsent == c.unsent
    requires |cl.unsent| + |u.queued| == |u.wire| + |u.client.unsent|
    requires |u.queued| == (if cl.state in {C.TcpSyning, C.KeySyning} then 1 else 0)
    requires |u.client.recvq| == |cl.recvq| + j - (if cl.state in {C.TcpSyning, C.Done} then 0 else 1)
    requires cl.state == C.Done ==> j > 0
    ensures ConnWeight(d) + |u.client.recvq| < ConnWeight(c) + |cl.recvq|
  {
    assert |d.up| == |c.up| + |u.wire| && |d.down| == |c.down| - j;
    if cl.state == C.Done {
      assert Rank(d) == Rank(c);
    } else {
      assert Rank(d) == Rank(c) - 1;
    }
  }

  lemma UpdateDecreases(w: World, i: nat, told: bool, env: C.Env, n: nat)
    requires Inv(w) && Delivery(w, Update(i, told, env, n))
    ensures Measure(DoUpdate(w, i, told, env, n)) < Measure(w)
  {
    var h := w.clients[i];
    var nid := h.conn.value;
    assert LinkOk(i, h, w.conns);
    UpdateLighter(h.client, w.conns[nid], told, env, n, w.cap);
    var v := DoUpdate(w, i, told, env, n);
    TotalUpdate(ConnWeight, w.conns, nid, v.conns[nid]);
    TotalUpdate(HolderWeight, w.clients, i, v.clients[i]);
  }

  lemma PopDecreases(w: World, i: nat)
    requires Inv(w) && Delivery(w, Pop(i))
    ensures Measure(DoPop(w, i)) < Measure(w)
  {
    TotalUpdate(HolderWeight, w.clients, i, DoPop(w, i).clients[i]);
  }

  /** A message of the client, all sends working: at most one message goes down and one up, and
      in the handshake the session moves on. */
  lemma FrontMoves(c: Conn, pos: nat, used: nat, cap: nat)
    requires ConnOk(c, true, cap) && c.up != [] && used > 0 && T.Gets(c.up[0], cap)
    ensures var o := A.RecvFront(c.session, pos, used, c.up[0], true, true);
      var d := AfterFront(c, o);
      && !Kills(o.effects) && |Ups(o.effects)| <= 1 && |Downs(o.effects)| <= 1
      && (Rank(d) < Rank(c) || (Rank(d) == Rank(c) && Downs(o.effects) == []))
  {
    var o := A.RecvFront(c.session, pos, used, c.up[0], true, true);
    LineHead(c);
    match c.session.state
    case Init =>
      assert o.effects == [S.ToFront(S.SynAckMsg(), true)];
      Single(S.ToFront(S.SynAckMsg(), true));
    case Auth =>
      AuthOutcome(c.session, c.up[0], pos, used, true);
      ReplyAndSyn(S.PassportMsg(), S.Choose(pos, used), S.SsMsg(S.SsSyn, 1, c.session.fd, c.session.nid, c.session.sid, []), true);
    case SynAck =>
    case Ok =>
      OkOutcome(c.session, c.up[0], pos, used, true, true);
      if o.effects != [] {
        Single(o.effects[0]);
      }
  }

  lemma RecvFrontDecreases(w: World, nid: nat)
    requires Inv(w) && Delivery(w, RecvFront(nid, true, true))
    ensures Measure(DoRecvFront(w, nid, true, true)) < Measure(w)
  {
    var c := w.conns[nid];
    var o := A.RecvFront(c.session, w.pos, |w.backs|, c.up[0], true, true);
    var v := DoRecvFront(w, nid, true, true);
    FrontMoves(c, w.pos, |w.backs|, w.cap);
    FrontKeeps(c, w.pos, |w.backs|, true, true, w.cap);
    TotalUpdate(ConnWeight, w.conns, nid, v.conns[nid]);
    DeliverAdds(w.backs, Ups(o.effects));
  }

  lemma {:induction false} DeliverAdds(backs: seq<Back>, ups: seq<Routed>)
    ensures Total(BackWeight, Deliver(backs, ups)) <= Total(BackWeight, backs) + |ups|
    decreases |ups|
  {
    if ups == [] {
    } else if ups[0].b >= |backs| {
      DeliverAdds(backs, ups[1..]);
    } else {
      var back := backs[ups[0].b].(toB := backs[ups[0].b].toB + [ups[0].m]);
      TotalUpdate(BackWeight, backs, ups[0].b, back);
      DeliverAdds(backs[ups[0].b := back], ups[1..]);
    }
  }

  /** The outcome of a message of a backend for an open session, all sends working. */
  lemma BackMoves(c: Conn, b: nat, m: S.SsMsg, pos: nat, used: nat, cap: nat)
    requires ConnOk(c, true, cap) && Fitting(c.phase, b, m)
    ensures var o := A.RecvBack(c.session, pos, used, m, true, true);
      var d := AfterBack(c, b, m, Some(o));
      && |Downs(o.effects)| <= 1 && Ups(o.effects) == [] && Rank(d) <= Rank(c)
      && (m.id == S.SsAck ==> !Kills(o.effects))
  {
    var o := A.RecvBack(c.session, pos, used, m, true, true);
    if o.effects != [] {
      assert o.effects == [o.effects[0]];
      Single(o.effects[0]);
    }
  }

  lemma RecvBackDecreases(w: World, b: nat)
    requires Inv(w) && Delivery(w, RecvBack(b, true, true))
    ensures Measure(DoRecvBack(w, b, true, true)) < Measure(w)
  {
    var m := w.backs[b].fromB[0];
    HeadIsAwaited(w, b);
    RoutedHome(w, m.fd, m.nid);
    var v := DoRecvBack(w, b, true, true);
    TotalUpdate(ConnWeight, w.conns, m.nid, v.conns[m.nid]);
    TotalUpdate(BackWeight, w.backs, b, Popped(w, b).backs[b]);
    BackGetsLighter(w, b, v);
  }

  lemma BackConnLighter(c: Conn, b: nat, m: S.SsMsg, pos: nat, used: nat, cap: nat)
    requires ConnOk(c, true, cap) && Fitting(c.phase, b, m)
    ensures var o := A.RecvBack(c.session, pos, used, m, true, true);
      var d := AfterBack(c, b, m, Some(o));
      && ConnWeight(d) <= ConnWeight(c) + 2 && d.k >= c.k && Ups(o.effects) == [] && (m.id == S.SsAck ==> !Kills(o.effects))
  {
    BackMoves(c, b, m, pos, used, cap);
  }

  lemma BackGetsLighter(w: World, b: nat, v: World)
    requires Inv(w) && Delivery(w, RecvBack(b, true, true)) && v == DoRecvBack(w, b, true, true)
    ensures var m := w.backs[b].fromB[0];
      && m.nid < |w.conns| && v.conns == w.conns[m.nid := v.conns[m.nid]]
      && ConnWeight(v.conns[m.nid]) <= ConnWeight(w.conns[m.nid]) + 2
      && v.backs == Popped(w, b).backs && v.clients == w.clients
      && (w.conns[m.nid].phase.AckSent? ==> v.pool == w.pool)
      && v.conns[m.nid].k >= w.conns[m.nid].k
  {
    var m := w.backs[b].fromB[0];
    HeadIsAwaited(w, b);
    RoutedHome(w, m.fd, m.nid);
    if Open(w, m.nid) {
      BackConnLighter(w.conns[m.nid], b, m, w.pos, |w.backs|, w.cap);
    }
  }

  lemma PhaseWeighs(c: Conn, p: Phase)
    requires Answered(p) == Answered(c.phase) + 1
    ensures ConnWeight(c.(phase := p)) == ConnWeight(c) - 8
  {
  }

  lemma TakeDecreases(w: World, b: nat)
    requires Inv(w) && Delivery(w, Take(b))
    ensures Measure(DoTake(w, b)) < Measure(w)
  {
    var m := w.backs[b].toB[0];
    var v := DoTake(w, b);
    assert BackOk(w.backs[b], b, Views(w.conns));
    assert UpOk(m, b, Views(w.conns));
    TotalUpdate(BackWeight, w.backs, b, v.backs[b]);
    if m.id == S.SsSyn {
      PhaseWeighs(w.conns[m.nid], Asked(b));
      TotalUpdate(ConnWeight, w.conns, m.nid, v.conns[m.nid]);
    }
  }

  lemma AckDecreases(w: World, b: nat, nid: nat, sid: nat)
    requires Inv(w) && Delivery(w, Ack(b, nid, sid))
    ensures Measure(DoAck(w, b, nid, sid)) < Measure(w)
  {
    AskedPhase(w, b, nid);
    PhaseWeighs(w.conns[nid], AckSent(b, sid));
    AckTotals(w, b, nid, sid);
  }

  lemma AskedPhase(w: World, b: nat, nid: nat)
    requires Inv(w) && b < |w.backs| && nid in w.backs[b].asked
    ensures nid < |w.conns| && w.conns[nid].phase == Asked(b)
  {
    assert BackOk(w.backs[b], b, Views(w.conns));
  }

  lemma AckTotals(w: World, b: nat, nid: nat, sid: nat)
    requires Delivery(w, Ack(b, nid, sid))
    requires ConnWeight(w.conns[nid].(phase := AckSent(b, sid))) == ConnWeight(w.conns[nid]) - 8
    ensures Measure(DoAck(w, b, nid, sid)) == Measure(w) - 5
  {
    var v := DoAck(w, b, nid, sid);
    TotalUpdate(BackWeight, w.backs, b, v.backs[b]);
    TotalUpdate(ConnWeight, w.conns, nid, v.conns[nid]);
  }

  /** Every delivery and every productive poll, in DONE too, brings the system strictly closer. */
  lemma DeliveriesDecrease(w: World, a: Action)
    requires Inv(w) && Delivery(w, a)
    ensures Measure(Apply(w, a)) < Measure(w)
  {
    match a
    case Connect(i, fd) => ConnectDecreases(w, i, fd);
    case Update(i, told, env, n) => UpdateDecreases(w, i, told, env, n);
    case Pop(i) => PopDecreases(w, i);
    case RecvFront(nid, frontOk, backOk) => RecvFrontDecreases(w, nid);
    case RecvBack(b, frontOk, backOk) => RecvBackDecreases(w, b);
    case Take(b) => TakeDecreases(w, b);
    case Ack(b, nid, sid) => AckDecreases(w, b, nid, sid);
  }

  // ---------- what can go wrong without any failure ----------

  /** Every client is waiting to connect, or runs on a connection that is open, or that was
      closed only after its handshake was through. */
  ghost predicate FailureFree(w: World) {
    forall i :: 0 <= i < |w.clients| ==>
      w.clients[i].conn.None? || (Attached(w, i) && Unbroken(w, w.clients[i].conn.value))
  }

  ghost predicate Unbroken(w: World, nid: nat) {
    nid < |w.conns| && (Open(w, nid) || w.conns[nid].k == 3)
  }

  ghost predicate IsDone(w: World, i: nat) {
    Attached(w, i) && w.clients[i].client.state == C.Done
  }

  /** A handshake message that is not wholly on the wire, or is there but will not fit the
      connector's receive buffer. */
  ghost predicate Blocked(c: Conn, cap: nat) {
    c.unsent != [] || (c.up != [] && !T.Gets(c.up[0], cap))
  }

  /** Not DONE, with such a message. */
  ghost predicate Hung(w: World, i: nat) {
    Attached(w, i) && w.clients[i].client.state != C.Done && Blocked(w.conns[w.clients[i].conn.value], w.cap)
  }

  ghost predicate AllDone(w: World) {
    forall i :: 0 <= i < |w.clients| ==> IsDone(w, i)
  }

  ghost predicate Settled(w: World) {
    forall i :: 0 <= i < |w.clients| ==> IsDone(w, i) || Hung(w, i)
  }

  lemma {:induction false} Bound(s: set<nat>) returns (b: nat)
    ensures forall x :: x in s ==> x < b
    decreases |s|
  {
    if s == {} {
      b := 0;
    } else {
      var y :| y in s;
      var c := Bound(s - {y});
      b := if c <= y then y + 1 else c;
      forall x | x in s ensures x < b {
        assert x == y || x in s - {y};
      }
    }
  }

  /** All sends in it take the whole buffer. */
  predicate Prompt(a: Action) {
    a.Update? ==> a.env == PLAIN
  }

  /** As long as some client is neither DONE nor hung, something can be delivered. */
  lemma NothingElseIsStuck(w: World) returns (a: Action)
    requires Inv(w) && FailureFree(w) && !Settled(w)
    ensures Delivery(w, a) && Prompt(a)
  {
    var i :| 0 <= i < |w.clients| && !(IsDone(w, i) || Hung(w, i));
    var h := w.clients[i];
    if h.conn.None? {
      var fd := Bound(w.pool.Keys);
      a := Connect(i, fd);
    } else {
      var nid := h.conn.value;
      var c := w.conns[nid];
      assert LinkOk(i, h, w.conns);
      if h.client.state == C.TcpSyning {
        a := Update(i, true, PLAIN, 0);
      } else if |h.client.recvq| + |c.down| > 0 {
        a := Update(i, true, PLAIN, |c.down|);
      } else {
        assert |h.client.recvq + c.down| == 0 && c.k == c.got;
        a := NextOf(w, nid);
      }
    }
  }

  /** With nothing left to read the next move is the connector's or the backend's. */
  lemma NextOf(w: World, nid: nat) returns (a: Action)
    requires Inv(w) && nid < |w.conns| && Open(w, nid) && !Blocked(w.conns[nid], w.cap)
    requires var c := w.conns[nid]; c.k == c.got < 3 && c.hs == (if c.got == 0 then 1 else 2)
    ensures Delivery(w, a) && Prompt(a)
  {
    var c := w.conns[nid];
    if c.session.state != S.SynAck {
      assert |Line(c)| == |c.up| + |c.unsent|;
      a := RecvFront(nid, true, true);
    } else {
      var b := c.phase.b;
      assert BackOk(w.backs[b], b, Views(w.conns));
      assert Holds(w.backs[b], b, nid, Views(w.conns)[nid].phase);
      match c.phase
      case SynSent(_) => a := Take(b);
      case Asked(_) => a := Ack(b, nid, 0);
      case AckSent(_, _) => a := RecvBack(b, true, true);
    }
  }

  // ---------- what hangs, hangs for good ----------

  /** A client that is not DONE and is stopped or hung. */
  ghost predicate Lost(w: World, i: nat) {
    && i < |w.clients| && w.clients[i].conn.Some? && w.clients[i].client.state != C.Done
    && (w.clients[i].stopped || Hung(w, i))
  }

  /** A hung client has one handshake message under way and nothing to read. */
  lemma HungWaits(w: World, i: nat)
    requires Inv(w) && Hung(w, i)
    ensures var cl, c := w.clients[i].client, w.conns[w.clients[i].conn.value];
      && cl.recvq == [] && c.down == [] && |c.up| + |c.unsent| == 1 && c.attempts == []
      && cl.state in {C.KeySyning, C.Authing} && cl.unsent == c.unsent && c.owner == i && c.k <= 1
      && (Open(w, w.clients[i].conn.value) ==> c.session.state in {S.Init, S.Auth})
  {
    var h := w.clients[i];
    var c := w.conns[h.conn.value];
    assert LinkOk(i, h, w.conns);
    assert |Line(c)| == |c.up| + |c.unsent|;
    assert |h.client.recvq + c.down| == |h.client.recvq| + |c.down|;
  }

  lemma LostUpdate(w: World, i: nat, told: bool, env: C.Env, n: nat)
    requires Inv(w) && Hung(w, i) && Enabled(w, Update(i, told, env, n))
    ensures Lost(DoUpdate(w, i, told, env, n), i)
  {
    HungWaits(w, i);
    var h := w.clients[i];
    var c := w.conns[h.conn.value];
    var e := Receiving(c, env, n);
    Reassociate(h.client, c, env, n);
    assert C.Received(h.client, e) == [];
    C.UpdateNeverFlushes(h.client, told, e);
    var d := Updated(h.client, c, told, e);
    assert d.up == c.up + [] == c.up && d.unsent == c.unsent;
  }

  /** The rest of the system cannot help it. */
  lemma LostElsewhere(w: World, v: World, i: nat)
    requires Hung(w, i) && i < |v.clients| && v.clients[i] == w.clients[i] && v.cap == w.cap
    requires var nid := w.clients[i].conn.value;
      nid < |v.conns| && v.conns[nid].up == w.conns[nid].up && v.conns[nid].unsent == w.conns[nid].unsent
    ensures Hung(v, i)
  {
  }

  lemma LostFront(w: World, i: nat, nid: nat, frontOk: bool, backOk: bool)
    requires Inv(w) && Hung(w, i) && Enabled(w, RecvFront(nid, frontOk, backOk))
    ensures Hung(DoRecvFront(w, nid, frontOk, backOk), i)
  {
    HungWaits(w, i);
    assert nid != w.clients[i].conn.value;
    LostElsewhere(w, DoRecvFront(w, nid, frontOk, backOk), i);
  }

  lemma RecvBackLeavesUp(w: World, b: nat, frontOk: bool, backOk: bool, nid: nat)
    requires nid < |w.conns| && b < |w.backs| && w.backs[b].fromB != []
    ensures var v := DoRecvBack(w, b, frontOk, backOk);
      nid < |v.conns| && v.conns[nid].up == w.conns[nid].up && v.cap == w.cap
  {
  }

  lemma LostBack(w: World, i: nat, b: nat, frontOk: bool, backOk: bool)
    requires Inv(w) && Hung(w, i) && Enabled(w, RecvBack(b, frontOk, backOk))
    ensures Hung(DoRecvBack(w, b, frontOk, backOk), i)
  {
    var nid := w.clients[i].conn.value;
    HeadIsAwaited(w, b);
    RecvBackLeavesBuffers(w, b, frontOk, backOk, nid);
    RecvBackLeavesUp(w, b, frontOk, backOk, nid);
    LostElsewhere(w, DoRecvBack(w, b, frontOk, backOk), i);
  }

  lemma LostTake(w: World, i: nat, b: nat)
    requires Hung(w, i) && Enabled(w, Take(b))
    ensures Hung(DoTake(w, b), i)
  {
    LostElsewhere(w, DoTake(w, b), i);
  }

  lemma OtherClients(w: World, i: nat, j: nat, v: World)
    requires Inv(w) && Hung(w, i) && i != j && Attached(w, j)
    requires |v.clients| == |w.clients| && v.clients == w.clients[j := v.clients[j]] && v.cap == w.cap
    requires |v.conns| == |w.conns| && v.conns == w.conns[w.clients[j].conn.value := v.conns[w.clients[j].conn.value]]
    ensures Hung(v, i)
  {
    assert LinkOk(i, w.clients[i], w.conns) && LinkOk(j, w.clients[j], w.conns);
    LostElsewhere(w, v, i);
  }

  lemma LostStays(w: World, i: nat, a: Action)
    requires Inv(w) && Lost(w, i) && !(a.Connect? && a.i == i)
    ensures Lost(Apply(w, a), i)
  {
    if w.clients[i].stopped {
      StoppedStays(w, i, a);
    } else if Enabled(w, a) {
      if a.Update? || a.Push? || a.Pop? || a.Connect? {
        LostAmongClients(w, i, a);
      } else {
        LostAmongBackends(w, i, a);
      }
    }
  }

  lemma LostAmongClients(w: World, i: nat, a: Action)
    requires Inv(w) && Hung(w, i) && !(a.Connect? && a.i == i) && Enabled(w, a)
    requires a.Update? || a.Push? || a.Pop? || a.Connect?
    ensures Lost(Apply(w, a), i)
  {
    match a
    case Connect(j, fd) => LostElsewhere(w, DoConnect(w, j, fd), i);
    case Update(j, told, env, n) =>
      if j == i {
        LostUpdate(w, i, told, env, n);
      } else {
        OtherClients(w, i, j, DoUpdate(w, j, told, env, n));
      }
    case Push(j, data, env) => OtherClients(w, i, j, DoPush(w, j, data, env));
    case Pop(j) => LostElsewhere(w, DoPop(w, j), i);
  }

  lemma LostAmongBackends(w: World, i: nat, a: Action)
    requires Inv(w) && Hung(w, i) && Enabled(w, a) && !(a.Update? || a.Push? || a.Pop? || a.Connect?)
    ensures Hung(Apply(w, a), i)
  {
    match a
    case RecvFront(nid, frontOk, backOk) => LostFront(w, i, nid, frontOk, backOk);
    case RecvBack(b, frontOk, backOk) => LostBack(w, i, b, frontOk, backOk);
    case Close(nid) => LostElsewhere(w, DoClose(w, nid), i);
    case Take(b) => LostTake(w, i, b);
    case Ack(b, nid, sid) => LostElsewhere(w, DoAck(w, b, nid, sid), i);
    case Send(b, nid, fin, data) => LostElsewhere(w, DoSend(w, b, nid, fin, data), i);
  }

  lemma StoppedStays(w: World, i: nat, a: Action)
    requires i < |w.clients| && w.clients[i].stopped && !(a.Connect? && a.i == i)
    ensures i < |Apply(w, a).clients| && Apply(w, a).clients[i] == w.clients[i]
  {
  }

  /** Whatever happens afterwards, short of a Resume of its own, a hung client is never DONE. */
  lemma {:induction false} HungForGood(w: World, i: nat, actions: seq<Action>)
    requires Inv(w) && Lost(w, i)
    requires forall k :: 0 <= k < |actions| ==> !(actions[k].Connect? && actions[k].i == i)
    ensures Lost(Run(w, actions), i) && !IsDone(Run(w, actions), i)
    decreases |actions|
  {
    if actions != [] {
      StepKeeps(w, actions[0]);
      LostStays(w, i, actions[0]);
      HungForGood(Apply(w, actions[0]), i, actions[1..]);
    }
  }

  /** One client, one send that would block, and no failure anywhere: the SYN stays in the buffer,
      nothing can be delivered, and the client waits for its key for ever. */
  lemma OneBlockedSendStalls(start: World, fd: nat)
    requires Starting(start) && |start.clients| == 1
    ensures var w := Run(start, [Connect(0, fd), BLOCKED]);
      Inv(w) && FailureFree(w) && Hung(w, 0) && forall a :: !Delivery(w, a)
  {
    StartingInv(start);
    StepKeeps(start, Connect(0, fd));
    var v := Apply(start, Connect(0, fd));
    StepKeeps(v, BLOCKED);
    var w := Apply(v, BLOCKED);
    RunOfTwo(start, Connect(0, fd), BLOCKED);
    BlockedOnce(start, fd);
    HungWaits(w, 0);
    NothingComes(w);
  }

  /** An Update whose send would block. */
  const BLOCKED: Action := Update(0, false, PLAIN.(send := C.SendBlocks), 0)

  lemma RunOfTwo(w: World, a: Action, b: Action)
    ensures Run(w, [a, b]) == Apply(Apply(w, a), b)
  {
    var v := Apply(w, a);
    assert [a, b][1..] == [b] && [b][1..] == [];
    assert Run(w, [a, b]) == Run(v, [b]);
    assert Run(v, [b]) == Run(Apply(v, b), []);
  }

  /** The client's SYN is all there is. */
  lemma BlockedOnce(start: World, fd: nat)
    requires Starting(start) && |start.clients| == 1
    ensures var w := Apply(Apply(start, Connect(0, fd)), BLOCKED);
      && |w.clients| == 1 && w.backs == start.backs && |w.conns| == 1 && w.conns[0].up == []
      && FailureFree(w) && Hung(w, 0)
  {
    var v := DoConnect(start, 0, fd);
    assert v == Apply(start, Connect(0, fd)) && Attached(v, 0);
    var w := DoUpdate(v, 0, false, BLOCKED.env, 0);
    assert w == Apply(v, BLOCKED);
    assert w.conns[0].up == [] && w.conns[0].unsent == [C.SynMsg(v.clients[0].client)];
    assert Open(w, 0) && Attached(w, 0);
  }

  lemma NothingComes(w: World)
    requires |w.clients| == 1 && Hung(w, 0) && |w.conns| == 1 && w.conns[0].up == [] && w.conns[0].down == []
    requires w.clients[0].client.recvq == [] && w.clients[0].client.state == C.KeySyning
    requires forall k :: 0 <= k < |w.backs| ==> w.backs[k] == IDLE
    ensures forall a :: !Delivery(w, a)
  {
  }

  // ---------- deliveries break nothing ----------

  lemma UnbrokenKeeps(w: World, v: World)
    requires FailureFree(w) && |v.clients| == |w.clients|
    requires forall i :: 0 <= i < |w.clients| ==> v.clients[i].conn == w.clients[i].conn && v.clients[i].stopped == w.clients[i].stopped
    requires |v.conns| == |w.conns| && forall nid :: 0 <= nid < |w.conns| && Unbroken(w, nid) ==> Unbroken(v, nid)
    ensures FailureFree(v)
  {
    forall i | 0 <= i < |v.clients| && v.clients[i].conn.Some? ensures Attached(v, i) && Unbroken(v, v.clients[i].conn.value) {
      assert Attached(w, i);
    }
  }

  lemma RecvBackUnbroken(w: World, b: nat)
    requires Inv(w) && FailureFree(w) && Delivery(w, RecvBack(b, true, true))
    ensures FailureFree(DoRecvBack(w, b, true, true))
  {
    var m := w.backs[b].fromB[0];
    var v := DoRecvBack(w, b, true, true);
    BackGetsLighter(w, b, v);
    HeadIsAwaited(w, b);
    StepKeeps(w, RecvBack(b, true, true));
    StepKeepsNames(w, RecvBack(b, true, true));
    BackPool(w, b);
    BackKeepsUnbroken(w, v, m.nid);
    UnbrokenKeeps(w, v);
  }

  lemma BackPool(w: World, b: nat)
    requires b < |w.backs| && w.backs[b].fromB != []
    ensures var m, v := w.backs[b].fromB[0], DoRecvBack(w, b, true, true);
      || v.pool == w.pool
      || (m.nid < |w.conns| && m.fd in w.pool && w.pool[m.fd] == m.nid && v.pool == w.pool - {w.conns[m.nid].session.fd})
  {
  }

  /** Only a session whose handshake is through can lose its connection to a backend. */
  lemma BackKeepsUnbroken(w: World, v: World, nid: nat)
    requires Inv(w) && Inv(v) && nid < |w.conns| == |v.conns| && v.conns == w.conns[nid := v.conns[nid]]
    requires v.conns[nid].session.fd == w.conns[nid].session.fd && v.conns[nid].k >= w.conns[nid].k
    requires w.conns[nid].phase.AckSent? ==> v.pool == w.pool
    requires w.conns[nid].phase.AckSent? || w.conns[nid].phase.AckDone?
    requires v.pool == w.pool || (Open(w, nid) && v.pool == w.pool - {w.conns[nid].session.fd})
    ensures forall x :: 0 <= x < |w.conns| && Unbroken(w, x) ==> Unbroken(v, x)
  {
    OthersStayOpen(w, v, nid);
  }

  lemma OthersStayOpen(w: World, v: World, nid: nat)
    requires Inv(w) && nid < |w.conns| == |v.conns| && v.conns == w.conns[nid := v.conns[nid]]
    requires v.conns[nid].session.fd == w.conns[nid].session.fd
    requires v.pool == w.pool || (Open(w, nid) && v.pool == w.pool - {w.conns[nid].session.fd})
    ensures forall x :: 0 <= x < |w.conns| && x != nid ==> Open(v, x) == Open(w, x) && v.conns[x] == w.conns[x]
  {
  }

  lemma RecvFrontUnbroken(w: World, nid: nat)
    requires Inv(w) && FailureFree(w) && Delivery(w, RecvFront(nid, true, true))
    ensures FailureFree(DoRecvFront(w, nid, true, true))
  {
    var v := DoRecvFront(w, nid, true, true);
    FrontMoves(w.conns[nid], w.pos, |w.backs|, w.cap);
    FrontKeeps(w.conns[nid], w.pos, |w.backs|, true, true, w.cap);
    OthersStayOpen(w, v, nid);
    UnbrokenKeeps(w, v);
  }

  lemma ConnectUnbroken(w: World, i: nat, fd: nat)
    requires Inv(w) && FailureFree(w) && Delivery(w, Connect(i, fd))
    ensures FailureFree(DoConnect(w, i, fd))
  {
    var v := DoConnect(w, i, fd);
    assert forall x :: 0 <= x < |w.conns| ==> Open(v, x) == Open(w, x) && v.conns[x] == w.conns[x];
    forall x | 0 <= x < |v.clients| && v.clients[x].conn.Some? ensures Attached(v, x) && Unbroken(v, v.clients[x].conn.value) {
      if x != i {
        assert Attached(w, x) && Unbroken(w, w.clients[x].conn.value);
      }
    }
  }

  lemma UpdateUnbroken(w: World, i: nat, told: bool, env: C.Env, n: nat)
    requires Inv(w) && FailureFree(w) && Delivery(w, Update(i, told, env, n))
    ensures FailureFree(DoUpdate(w, i, told, env, n))
  {
    var v := DoUpdate(w, i, told, env, n);
    var nid := w.clients[i].conn.value;
    assert LinkOk(i, w.clients[i], w.conns);
    UpdateMoves(w.clients[i].client, w.conns[nid], told, env, n, w.cap);
    StaysUnbroken(w, v);
  }

  lemma DeliveriesBreakNothing(w: World, a: Action)
    requires Inv(w) && FailureFree(w) && Delivery(w, a)
    ensures FailureFree(Apply(w, a))
  {
    match a
    case Connect(i, fd) => ConnectUnbroken(w, i, fd);
    case Update(i, told, env, n) => UpdateUnbroken(w, i, told, env, n);
    case RecvFront(nid, frontOk, backOk) => RecvFrontUnbroken(w, nid);
    case RecvBack(b, frontOk, backOk) => RecvBackUnbroken(w, b);
    case Pop(i) => StaysUnbroken(w, DoPop(w, i));
    case Take(b) => TakeUnbroken(w, b);
    case Ack(b, nid, sid) => AckUnbroken(w, b, nid, sid);
  }

  lemma TakeUnbroken(w: World, b: nat)
    requires FailureFree(w) && Delivery(w, Take(b))
    ensures FailureFree(DoTake(w, b))
  {
    StaysUnbroken(w, DoTake(w, b));
  }

  lemma AckUnbroken(w: World, b: nat, nid: nat, sid: nat)
    requires FailureFree(w) && Delivery(w, Ack(b, nid, sid))
    ensures FailureFree(DoAck(w, b, nid, sid))
  {
    StaysUnbroken(w, DoAck(w, b, nid, sid));
  }

  lemma StaysUnbroken(w: World, v: World)
    requires FailureFree(w) && |v.clients| == |w.clients|
    requires forall i :: 0 <= i < |w.clients| ==> v.clients[i].conn == w.clients[i].conn && v.clients[i].stopped == w.clients[i].stopped
    requires v.pool == w.pool && |v.conns| == |w.conns|
    requires forall x :: 0 <= x < |w.conns| ==> v.conns[x].session == w.conns[x].session && v.conns[x].k == w.conns[x].k
    ensures FailureFree(v)
  {
    assert forall x :: 0 <= x < |w.conns| && Unbroken(w, x) ==> Unbroken(v, x);
    UnbrokenKeeps(w, v);
  }

  /** A run of deliveries only. */
  ghost predicate Delivers(w: World, actions: seq<Action>)
    decreases |actions|
  {
    actions == [] || (Delivery(w, actions[0]) && Delivers(Apply(w, actions[0]), actions[1..]))
  }

  /** From any state in which nothing has failed, no run of deliveries is longer than the measure.
      One that cannot be continued has settled every client, and each is then DONE if and only if
      it does not hang. */
  lemma {:induction false} DeliveriesFinish(w: World, actions: seq<Action>)
    requires Inv(w) && FailureFree(w) && Delivers(w, actions)
    ensures var v := Run(w, actions);
      && Inv(v) && FailureFree(v) && Measure(v) + |actions| <= Measure(w)
      && ((forall a :: !Delivery(v, a)) ==> forall i :: 0 <= i < |v.clients| ==> (IsDone(v, i) <==> !Hung(v, i)))
    decreases |actions|
  {
    if actions == [] {
      if !Settled(w) {
        var a := NothingElseIsStuck(w);
      }
    } else {
      DeliveriesDecrease(w, actions[0]);
      DeliveriesBreakNothing(w, actions[0]);
      StepKeeps(w, actions[0]);
      DeliveriesFinish(Apply(w, actions[0]), actions[1..]);
    }
  }

  // ---------- when everybody gets through ----------

  function SynOf(c: C.Client): CsMsg {
    C.SynMsg(c)
  }

  function AuthOf(c: C.Client): CsMsg {
    C.AuthMsg(c.(seqno := c.seqno + 1))
  }

  /** Both handshake messages of a client that is about to connect fit the connector's buffer. */
  ghost predicate CredentialsFit(c: C.Client, cap: nat) {
    T.Gets(SynOf(c), cap) && T.Gets(AuthOf(c), cap)
  }

  ghost predicate Sends(d: Conn, c: C.Client) {
    d.syn == SynOf(c) && d.auth == AuthOf(c)
  }

  ghost predicate AllFit(start: World) {
    forall i :: 0 <= i < |start.clients| ==> CredentialsFit(start.clients[i].client, start.cap)
  }

  /** Deliveries alone bring every client to DONE. */
  ghost predicate Finishes(start: World, actions: seq<Action>) {
    Delivers(start, actions) && AllDone(Run(start, actions))
  }

  /** Each client is as it started, or on its first connection. */
  ghost predicate FirstTime(start: World, w: World) {
    && |w.clients| == |start.clients| && w.cap == start.cap
    && forall i :: 0 <= i < |w.clients| ==>
      var h, c := w.clients[i], start.clients[i].client;
      if h.conn.None? then h.client == c else h.conn.value < |w.conns| && Sends(w.conns[h.conn.value], c)
  }

  /** The two messages a connection has to send never change. */
  ghost predicate SameMessages(w: World, v: World) {
    && |v.conns| >= |w.conns| && v.cap == w.cap
    && forall x :: 0 <= x < |w.conns| ==> v.conns[x].syn == w.conns[x].syn && v.conns[x].auth == w.conns[x].auth
  }

  lemma OneConnSameMessages(w: World, v: World, x: nat)
    requires x < |w.conns| == |v.conns| && v.conns == w.conns[x := v.conns[x]] && v.cap == w.cap
    requires v.conns[x].syn == w.conns[x].syn && v.conns[x].auth == w.conns[x].auth
    ensures SameMessages(w, v)
  {
  }

  lemma BackSameMessages(w: World, b: nat)
    requires Inv(w) && Delivery(w, RecvBack(b, true, true))
    ensures SameMessages(w, DoRecvBack(w, b, true, true))
  {
    HeadIsAwaited(w, b);
    OneConnSameMessages(w, DoRecvBack(w, b, true, true), w.backs[b].fromB[0].nid);
  }

  lemma DeliveriesSameMessages(w: World, a: Action)
    requires Inv(w) && Delivery(w, a)
    ensures SameMessages(w, Apply(w, a))
  {
    match a
    case Connect(i, fd) =>
    case Update(i, told, env, n) => OneConnSameMessages(w, DoUpdate(w, i, told, env, n), w.clients[i].conn.value);
    case Pop(i) =>
    case RecvFront(nid, frontOk, backOk) => OneConnSameMessages(w, DoRecvFront(w, nid, frontOk, backOk), nid);
    case RecvBack(b, frontOk, backOk) => BackSameMessages(w, b);
    case Take(b) => TakeSameMessages(w, b);
    case Ack(b, nid, sid) => OneConnSameMessages(w, DoAck(w, b, nid, sid), nid);
  }

  lemma TakeSameMessages(w: World, b: nat)
    requires Delivery(w, Take(b))
    ensures SameMessages(w, DoTake(w, b))
  {
    var m := w.backs[b].toB[0];
    if m.id == S.SsSyn && m.nid < |w.conns| {
      OneConnSameMessages(w, DoTake(w, b), m.nid);
    }
  }

  lemma StaysFirstTime(start: World, w: World, a: Action)
    requires Inv(w) && FirstTime(start, w) && Delivery(w, a)
    ensures FirstTime(start, Apply(w, a))
  {
    DeliveriesSameMessages(w, a);
    forall i | 0 <= i < |w.clients| && !(a.Connect? && a.i == i) {
      KeepsItsConnection(w, a, i);
    }
  }

  lemma KeepsItsConnection(w: World, a: Action, i: nat)
    requires Delivery(w, a) && i < |w.clients| && !(a.Connect? && a.i == i)
    ensures var h, g := w.clients[i], Apply(w, a).clients[i];
      |Apply(w, a).clients| == |w.clients| && g.conn == h.conn && (h.conn.None? ==> g == h)
  {
  }

  /** A DONE client's two messages fitted. */
  lemma DoneMeansFits(w: World, i: nat)
    requires Inv(w) && IsDone(w, i)
    ensures var c := w.conns[w.clients[i].conn.value]; T.Gets(c.syn, w.cap) && T.Gets(c.auth, w.cap)
  {
    assert LinkOk(i, w.clients[i], w.conns);
  }

  lemma {:induction false} RunStaysFirstTime(start: World, w: World, actions: seq<Action>)
    requires Inv(w) && FirstTime(start, w) && Delivers(w, actions)
    ensures Inv(Run(w, actions)) && FirstTime(start, Run(w, actions))
    decreases |actions|
  {
    if actions != [] {
      StaysFirstTime(start, w, actions[0]);
      StepKeeps(w, actions[0]);
      RunStaysFirstTime(start, Apply(w, actions[0]), actions[1..]);
    }
  }

  /** Nothing of the handshake is held back in a send buffer. */
  ghost predicate Flowing(w: World) {
    forall i :: 0 <= i < |w.clients| ==>
      && w.clients[i].client.unsent == []
      && (w.clients[i].conn.Some? ==> w.clients[i].conn.value < |w.conns| && w.conns[w.clients[i].conn.value].unsent == [])
  }

  /** Then, with credentials that fit, no client hangs. */
  lemma FlowingNeverHangs(start: World, w: World)
    requires Inv(w) && FailureFree(w) && FirstTime(start, w) && Flowing(w)
    requires AllFit(start)
    ensures forall i :: 0 <= i < |w.clients| ==> !Hung(w, i)
  {
    forall i | 0 <= i < |w.clients| && Attached(w, i) && w.clients[i].client.state != C.Done ensures !Hung(w, i) {
      var c := w.conns[w.clients[i].conn.value];
      assert LinkOk(i, w.clients[i], w.conns) && CredentialsFit(start.clients[i].client, start.cap);
      assert Unbroken(w, w.clients[i].conn.value);
      assert Line(c) == c.up;
    }
  }

  lemma PromptSend(t: C.Client, e: C.Env, m: CsMsg, next: C.State)
    requires t.unsent == [] && t.sock == K.NetConnected && e.push == K.NORMAL && e.send == C.Moved(2)
    ensures C.SendStep(t, e, m, next).client.unsent == []
  {
  }

  /** A prompt Update leaves nothing in the buffer. */
  lemma PromptFlushes(cl: C.Client, told: bool, e: C.Env)
    requires cl.unsent == [] && e.push == K.NORMAL && e.send == C.Moved(2) && e.check.IsEstablished?
    requires cl.state == C.TcpSyning || (SockOk(cl.state, cl.sock) && cl.state !in {C.Inited, C.Fini})
    ensures C.Step(cl, told, e).client.unsent == []
  {
    match cl.state
    case TcpSyning =>
      var t := cl.(sock := K.NetConnected);
      PromptSend(t, e, C.SynMsg(t), C.KeySyning);
    case KeySyning =>
      var (t, ret) := C.TryAck(cl, e);
      if ret == 0 {
        PromptSend(t, e, C.AuthMsg(t), C.Authing);
      }
    case Authing =>
    case Ready =>
    case Done =>
  }

  lemma StaysFlowing(w: World, a: Action)
    requires Inv(w) && Flowing(w) && Delivery(w, a) && Prompt(a)
    ensures Flowing(Apply(w, a))
  {
    match a
    case Connect(i, fd) =>
    case Update(i, told, env, n) => UpdateFlows(w, i, told, env, n);
    case Pop(i) =>
    case RecvFront(nid, frontOk, backOk) => OthersFlow(w, a);
    case RecvBack(b, frontOk, backOk) => OthersFlow(w, a);
    case Take(b) => OthersFlow(w, a);
    case Ack(b, nid, sid) => OthersFlow(w, a);
  }

  lemma UpdateFlows(w: World, i: nat, told: bool, env: C.Env, n: nat)
    requires Inv(w) && Flowing(w) && Delivery(w, Update(i, told, env, n)) && env == PLAIN
    ensures Flowing(DoUpdate(w, i, told, env, n))
  {
    var h := w.clients[i];
    assert LinkOk(i, h, w.conns);
    PromptFlushes(h.client, told, Receiving(w.conns[h.conn.value], env, n));
  }

  lemma OthersFlow(w: World, a: Action)
    requires Inv(w) && Flowing(w) && Delivery(w, a) && (a.RecvFront? || a.RecvBack? || a.Take? || a.Ack?)
    ensures Flowing(Apply(w, a))
  {
    forall i | 0 <= i < |w.clients| && w.clients[i].conn.Some? ensures SameBuffer(w, Apply(w, a), w.clients[i].conn.value) {
      NobodyElseFills(w, a, w.clients[i].conn.value);
    }
  }

  lemma NobodyElseFills(w: World, a: Action, nid: nat)
    requires Inv(w) && Delivery(w, a) && (a.RecvFront? || a.RecvBack? || a.Take? || a.Ack?) && nid < |w.conns|
    ensures SameBuffer(w, Apply(w, a), nid)
  {
    match a
    case RecvFront(x, frontOk, backOk) => RecvFrontLeavesBuffers(w, x, frontOk, backOk, nid);
    case RecvBack(b, frontOk, backOk) =>
      HeadIsAwaited(w, b);
      RecvBackLeavesBuffers(w, b, frontOk, backOk, nid);
    case Take(b) => TakeLeavesBuffers(w, b, nid);
    case Ack(b, x, sid) => OneConnSameBuffer(w, DoAck(w, b, x, sid), x, nid);
  }

  lemma {:induction false} EveryClientGetsThere(start: World, w: World) returns (actions: seq<Action>)
    requires Inv(w) && FailureFree(w) && FirstTime(start, w) && Flowing(w)
    requires AllFit(start)
    ensures Delivers(w, actions) && AllDone(Run(w, actions)) && |actions| <= Measure(w)
    decreases Measure(w)
  {
    FlowingNeverHangs(start, w);
    if Settled(w) {
      actions := [];
    } else {
      var a := NothingElseIsStuck(w);
      DeliveriesDecrease(w, a);
      DeliveriesBreakNothing(w, a);
      StepKeeps(w, a);
      StaysFirstTime(start, w, a);
      StaysFlowing(w, a);
      var rest := EveryClientGetsThere(start, Apply(w, a));
      actions := [a] + rest;
      assert actions[1..] == rest;
    }
  }

  lemma {:induction false} TotalOfEqual<T>(f: T -> nat, xs: seq<T>, each: nat)
    requires forall i :: 0 <= i < |xs| ==> f(xs[i]) == each
    ensures Total(f, xs) == each * |xs|
    decreases |xs|
  {
    if xs != [] {
      TotalOfEqual(f, xs[1..], each);
      assert each * |xs| == each * |xs[1..]| + each;
    }
  }

  /** N clients whose credentials fit the connector's buffer can all be DONE after at most a hundred
      deliveries each. */
  lemma HandshakesFinish(start: World) returns (actions: seq<Action>)
    requires Starting(start)
    requires AllFit(start)
    ensures Finishes(start, actions) && |actions| <= 100 * |start.clients|
  {
    StartingInv(start);
    TotalOfEqual(BackWeight, start.backs, 0);
    TotalOfEqual(HolderWeight, start.clients, 100);
    actions := EveryClientGetsThere(start, start);
  }

  /** And only they can: the clients get through by deliveries if and only if both handshake
      messages of each of them fit. */
  lemma HandshakesFinishExactlyWhenTheyFit(start: World)
    requires Starting(start)
    ensures (exists actions :: Finishes(start, actions)) <==> AllFit(start)
  {
    forall actions | Finishes(start, actions) ensures AllFit(start) {
      FinishedMeansFits(start, actions);
    }
    if AllFit(start) {
      var actions := HandshakesFinish(start);
      assert Finishes(start, actions);
    }
  }

  lemma FinishedMeansFits(start: World, actions: seq<Action>)
    requires Starting(start) && Finishes(start, actions)
    ensures AllFit(start)
  {
    StartingInv(start);
    RunStaysFirstTime(start, start, actions);
    var v := Run(start, actions);
    forall i | 0 <= i < |start.clients| ensures CredentialsFit(start.clients[i].client, start.cap) {
      assert IsDone(v, i);
      DoneMeansFits(v, i);
    }
  }
}
