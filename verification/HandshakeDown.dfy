/** What the application receives: the payloads a client has peeked and popped, followed by those
    still waiting for it or on their way, are the payloads its session was given to send down. */
module HandshakeDown {
  import opened Bytes
  import opened ClientMessages
  import C = ClientProtocol
  import S = ConnectorSession
  import A = ConnectorApp
  import T = Transport
  import opened HandshakeWorld
  import opened HandshakeConn
  import opened HandshakeBacks
  import opened Handshake

  /** given has, for each connection, the payloads backends have sent down on it, when the message
      reached the session and could be passed on; read has, for each client, what its application
      has peeked and popped since it last connected. */
  datatype History = History(given: seq<seq<seq<byte>>>, read: seq<seq<seq<byte>>>)

  function NoHistory(w: World): History {
    History([], seq(|w.clients|, _ => []))
  }

  /** PeekMessage's answer, as what has been read. */
  function Shown(c: C.Client): seq<seq<byte>> {
    match C.Peek(c).2
    case None => []
    case Some(data) => [data]
  }

  /** A non-empty data message whose session is found, on a connection that takes it. */
  predicate GoesDown(w: World, m: S.SsMsg, frontOk: bool) {
    m.id == S.SsData && m.data != [] && frontOk && FrontEndByAsyncIds(w, m.fd, m.nid).Some?
  }

  ghost function Record(w: World, h: History, a: Action): History
    requires |h.given| == |w.conns| && |h.read| == |w.clients|
  {
    if !Enabled(w, a) then h
    else
      match a
      case Connect(i, fd) => History(h.given + [[]], h.read[i := []])
      case Pop(i) => h.(read := h.read[i := h.read[i] + Shown(w.clients[i].client)])
      case RecvBack(b, frontOk, backOk) =>
        var m := w.backs[b].fromB[0];
        if GoesDown(w, m, frontOk) then h.(given := h.given[m.nid := h.given[m.nid] + [m.data]]) else h
      case _ => h
  }

  lemma SizesFollow(w: World, h: History, a: Action)
    requires |h.given| == |w.conns| && |h.read| == |w.clients|
    ensures var v, g := Apply(w, a), Record(w, h, a); |g.given| == |v.conns| && |g.read| == |v.clients|
  {
  }

  ghost function RunHistory(w: World, h: History, actions: seq<Action>): History
    requires |h.given| == |w.conns| && |h.read| == |w.clients|
    decreases |actions|
  {
    if actions == [] then h
    else
      SizesFollow(w, h, actions[0]);
      RunHistory(Apply(w, actions[0]), Record(w, h, actions[0]), actions[1..])
  }

  // ---------- the invariant ----------

  /** What the client has yet to take of what was sent down to it. */
  function Waiting(cl: C.Client, c: Conn): seq<CsMsg> {
    cl.recvq + c.down
  }

  /** Of that, what comes after the handshake replies. */
  function Coming(cl: C.Client, c: Conn): seq<CsMsg> {
    if 0 <= c.k - c.got <= |Waiting(cl, c)| then Waiting(cl, c)[c.k - c.got..] else []
  }

  ghost predicate ReadOk(i: nat, holder: Holder, conns: seq<Conn>, h: History) {
    holder.conn.Some? ==>
      && i < |h.read| && holder.conn.value < |conns| && holder.conn.value < |h.given|
      && var given, read := h.given[holder.conn.value], h.read[i];
         && read <= given
         && (!holder.stopped ==> given == read + Datas(Coming(holder.client, conns[holder.conn.value])))
  }

  ghost predicate AllRead(w: World, h: History) {
    && |h.given| == |w.conns| && |h.read| == |w.clients|
    && forall i :: 0 <= i < |w.clients| ==> ReadOk(i, w.clients[i], w.conns, h)
  }

  /** Nothing a client has to read changes, and neither does the history. */
  lemma NothingToRead(w: World, v: World, h: History)
    requires AllRead(w, h) && |v.conns| == |w.conns| && |v.clients| == |w.clients|
    requires forall i :: 0 <= i < |w.clients| ==> SameHolder(w.clients[i], v.clients[i])
    requires forall x :: 0 <= x < |w.conns| ==> SameDown(w.conns[x], v.conns[x])
    ensures AllRead(v, h)
  {
    forall i | 0 <= i < |v.clients| ensures ReadOk(i, v.clients[i], v.conns, h) {
      assert ReadOk(i, w.clients[i], w.conns, h);
    }
  }

  predicate SameHolder(h: Holder, g: Holder) {
    g.conn == h.conn && g.stopped == h.stopped && g.client.recvq == h.client.recvq
  }

  predicate SameDown(c: Conn, d: Conn) {
    d.down == c.down && d.k == c.k && d.got == c.got
  }

  /** One client and its connection change, by a lemma of their own; no other client is on that
      connection. */
  lemma OneReads(w: World, v: World, h: History, g: History, i: nat, nid: nat)
    requires Inv(w) && AllRead(w, h) && i < |w.clients| && w.clients[i].conn == Some(nid) && nid < |w.conns|
    requires |v.clients| == |w.clients| && v.clients == w.clients[i := v.clients[i]]
    requires |v.conns| == |w.conns| && v.conns == w.conns[nid := v.conns[nid]]
    requires |g.given| == |h.given| && g.given == h.given[nid := g.given[nid]]
    requires |g.read| == |h.read| && g.read == h.read[i := g.read[i]]
    requires ReadOk(i, v.clients[i], v.conns, g)
    ensures AllRead(v, g)
  {
    assert LinkOk(i, w.clients[i], w.conns);
    forall x | 0 <= x < |v.clients| ensures ReadOk(x, v.clients[x], v.conns, g) {
      assert LinkOk(x, w.clients[x], w.conns) && ReadOk(x, w.clients[x], w.conns, h);
    }
  }

  /** The connector's end of a connection changes; whoever is on it still has everything. */
  lemma ConnReads(w: World, v: World, h: History, g: History, nid: nat)
    requires AllRead(w, h) && nid < |w.conns| && v.clients == w.clients
    requires |v.conns| == |w.conns| && v.conns == w.conns[nid := v.conns[nid]]
    requires |g.given| == |h.given| && g.given == h.given[nid := g.given[nid]] && g.read == h.read
    requires h.given[nid] <= g.given[nid]
    requires forall i :: 0 <= i < |w.clients| && w.clients[i].conn == Some(nid) && !w.clients[i].stopped ==>
      ReadOk(i, w.clients[i], v.conns, g)
    ensures AllRead(v, g)
  {
    forall i | 0 <= i < |v.clients| ensures ReadOk(i, v.clients[i], v.conns, g) {
      assert ReadOk(i, w.clients[i], w.conns, h);
    }
  }

  // ---------- a client takes in, reads, and pushes ----------

  lemma SendTakesNothing(t: C.Client, e: C.Env, m: CsMsg, next: C.State)
    ensures C.SendStep(t, e, m, next).client.recvq == t.recvq
  {
  }

  lemma KeyTakesTheFront(cl: C.Client, told: bool, e: C.Env)
    requires cl.state == C.KeySyning
    ensures var q, r := C.Received(cl, e), C.Step(cl, told, e).client.recvq; r == q || (q != [] && r == q[1..])
  {
    var (t, ret) := C.TryAck(cl, e);
    SendTakesNothing(t, e, C.AuthMsg(t), C.Authing);
  }

  /** An Update takes nothing out of the receive buffer but the reply at its front, and that only
      while it waits for one. */
  lemma UpdateTakesTheFront(cl: C.Client, told: bool, e: C.Env)
    requires cl.state in {C.KeySyning, C.Authing, C.Ready, C.Done}
    ensures var q, r := cl.recvq + C.Arrives(cl, told, e), C.Step(cl, told, e).client.recvq;
      r == q || (cl.state != C.Done && q != [] && r == q[1..])
  {
    if cl.state == C.KeySyning {
      KeyTakesTheFront(cl, told, e);
    } else if cl.state == C.Done {
      assert cl.recvq + [] == cl.recvq;
    }
  }

  /** Either way what comes after the replies is the same. */
  lemma TookTheFront(cl: C.Client, c: Conn, u: C.Updated, j: nat, q: seq<CsMsg>)
    requires j <= |c.down| && |q| == |cl.recvq| + j && q + c.down[j..] == Waiting(cl, c)
    requires 0 <= c.k - c.got <= |Waiting(cl, c)|
    requires u.client.recvq == q || (q != [] && c.got < c.k && u.client.recvq == q[1..])
    ensures Coming(u.client, AfterUpdate(c, cl, u, j)) == Coming(cl, c)
  {
    var d, all, n := AfterUpdate(c, cl, u, j), Waiting(cl, c), c.k - c.got;
    if u.client.recvq == q {
      assert Waiting(u.client, d) == all;
    } else {
      assert Waiting(u.client, d) == all[1..];
      assert all[1..][n - 1..] == all[n..];
    }
  }

  lemma ReplyOwed(cl: C.Client, c: Conn, q: seq<CsMsg>, rest: seq<CsMsg>)
    requires Linked(cl, c) && cl.state in {C.KeySyning, C.Authing, C.Ready} && q != [] && q + rest == cl.recvq + c.down
    ensures c.got < c.k
  {
    TakeOne(q, rest, c.got, c.k);
  }

  lemma UpdateReads(cl: C.Client, c: Conn, told: bool, env: C.Env, n: nat, cap: nat)
    requires ConnOk(c, false, cap) && Linked(cl, c) && n <= |c.down| && cl.state != C.TcpSyning
    ensures var e := Receiving(c, env, n); Coming(C.Step(cl, told, e).client, Updated(cl, c, told, e)) == Coming(cl, c)
  {
    var e := Receiving(c, env, n);
    ArrivesFromTheFront(cl, c, told, env, n);
    UpdateTakesTheFront(cl, told, e);
    UpdateReadsFrom(cl, c, C.Step(cl, told, e), C.Arrives(cl, told, e));
  }

  lemma UpdateReadsFrom(cl: C.Client, c: Conn, u: C.Updated, ms: seq<CsMsg>)
    requires Linked(cl, c) && cl.state !in {C.TcpSyning, C.Inited, C.Fini}
    requires |ms| <= |c.down| && (cl.recvq + ms) + c.down[|ms|..] == cl.recvq + c.down
    requires var q := cl.recvq + ms;
      u.client.recvq == q || (cl.state != C.Done && q != [] && u.client.recvq == q[1..])
    ensures Coming(u.client, AfterUpdate(c, cl, u, |ms|)) == Coming(cl, c)
  {
    var q := cl.recvq + ms;
    if cl.state != C.Done && q != [] {
      ReplyOwed(cl, c, q, c.down[|ms|..]);
    }
    TookTheFront(cl, c, u, |ms|, q);
  }

  lemma ArrivesFromTheFront(cl: C.Client, c: Conn, told: bool, env: C.Env, n: nat)
    requires n <= |c.down|
    ensures var ms := C.Arrives(cl, told, Receiving(c, env, n));
      |ms| <= |c.down| && (cl.recvq + ms) + c.down[|ms|..] == cl.recvq + c.down
  {
    Reassociate(cl, c, env, n);
    assert c.down[0..] == c.down && cl.recvq + [] == cl.recvq;
  }

  /** While it connects there is nothing yet. */
  lemma NothingYet(cl: C.Client, c: Conn, told: bool, env: C.Env, n: nat, cap: nat)
    requires ConnOk(c, false, cap) && Linked(cl, c) && n <= |c.down| && cl.state == C.TcpSyning
    ensures var e := Receiving(c, env, n); Coming(C.Step(cl, told, e).client, Updated(cl, c, told, e)) == Coming(cl, c)
  {
    var e := Receiving(c, env, n);
    assert |cl.recvq + c.down| == 0;
    SynStep(cl, told, e);
    NothingComes(cl, c, C.Step(cl, told, e));
  }

  lemma NothingComes(cl: C.Client, c: Conn, u: C.Updated)
    requires cl.recvq == u.client.recvq == [] && c.down == []
    ensures Coming(u.client, AfterUpdate(c, cl, u, 0)) == Coming(cl, c) == []
  {
  }

  lemma UpdatedOk(w: World, h: History, i: nat, told: bool, env: C.Env, n: nat)
    requires Enabled(w, Update(i, told, env, n)) && ReadOk(i, w.clients[i], w.conns, h) && |h.given| == |w.conns|
    requires var nid := w.clients[i].conn.value; Linked(w.clients[i].client, w.conns[nid]) && ConnOk(w.conns[nid], false, w.cap)
    ensures var v := DoUpdate(w, i, told, env, n); ReadOk(i, v.clients[i], v.conns, h)
  {
    var cl, c := w.clients[i].client, w.conns[w.clients[i].conn.value];
    if cl.state == C.TcpSyning {
      NothingYet(cl, c, told, env, n, w.cap);
    } else {
      UpdateReads(cl, c, told, env, n, w.cap);
    }
  }

  lemma UpdateStepReads(w: World, h: History, i: nat, told: bool, env: C.Env, n: nat)
    requires Inv(w) && AllRead(w, h) && Enabled(w, Update(i, told, env, n))
    ensures AllRead(DoUpdate(w, i, told, env, n), h)
  {
    var nid := w.clients[i].conn.value;
    assert LinkOk(i, w.clients[i], w.conns) && ReadOk(i, w.clients[i], w.conns, h);
    UpdatedOk(w, h, i, told, env, n);
    UpdateTouches(w, i, told, env, n);
    OneReads(w, DoUpdate(w, i, told, env, n), h, h, i, nid);
  }

  lemma UpdateTouches(w: World, i: nat, told: bool, env: C.Env, n: nat)
    requires Enabled(w, Update(i, told, env, n))
    ensures var v, nid := DoUpdate(w, i, told, env, n), w.clients[i].conn.value;
      && |v.clients| == |w.clients| && v.clients == w.clients[i := v.clients[i]]
      && |v.conns| == |w.conns| && v.conns == w.conns[nid := v.conns[nid]]
  {
  }

  lemma PushReadsNothing(w: World, i: nat, data: seq<byte>, env: C.Env)
    requires Enabled(w, Push(i, data, env))
    ensures var v := DoPush(w, i, data, env);
      && |v.conns| == |w.conns| && |v.clients| == |w.clients|
      && (forall x :: 0 <= x < |w.clients| ==> SameHolder(w.clients[x], v.clients[x]))
      && (forall x :: 0 <= x < |w.conns| ==> SameDown(w.conns[x], v.conns[x]))
  {
  }

  lemma PushStepReads(w: World, h: History, i: nat, data: seq<byte>, env: C.Env)
    requires AllRead(w, h) && Enabled(w, Push(i, data, env))
    ensures AllRead(DoPush(w, i, data, env), h)
  {
    PushReadsNothing(w, i, data, env);
    NothingToRead(w, DoPush(w, i, data, env), h);
  }

  /** A pop after a peek takes exactly what was shown. */
  lemma PopReads(cl: C.Client, c: Conn, given: seq<seq<byte>>, read: seq<seq<byte>>)
    requires Linked(cl, c) && cl.state == C.Done && c.k <= 3 && given == read + Datas(Coming(cl, c))
    ensures var t := C.Pop(C.Peek(cl).0).0; given == (read + Shown(cl)) + Datas(Coming(t, c)) && read + Shown(cl) <= given
  {
    var q := cl.recvq + c.down;
    assert q[0..] == q;
    if cl.recvq == [] {
      assert read + [] == read;
    } else {
      var t := C.Pop(C.Peek(cl).0).0;
      assert q[0] == cl.recvq[0] && q[1..] == cl.recvq[1..] + c.down;
      assert Waiting(t, c) == q[1..] && q[1..][0..] == q[1..];
      assert Shown(cl) == [A.DataOf(q[0])];
      Joined(read, Shown(cl), Datas(q[1..]));
    }
  }

  lemma PoppedOk(w: World, h: History, i: nat)
    requires Enabled(w, Pop(i)) && ReadOk(i, w.clients[i], w.conns, h) && |h.given| == |w.conns| && |h.read| == |w.clients|
    requires var nid := w.clients[i].conn.value; Linked(w.clients[i].client, w.conns[nid]) && w.conns[nid].k <= 3
    ensures ReadOk(i, DoPop(w, i).clients[i], w.conns, Record(w, h, Pop(i)))
  {
    var holder := w.clients[i];
    PopReads(holder.client, w.conns[holder.conn.value], h.given[holder.conn.value], h.read[i]);
  }

  lemma PopStepReads(w: World, h: History, i: nat)
    requires Inv(w) && AllRead(w, h) && Enabled(w, Pop(i))
    ensures AllRead(DoPop(w, i), Record(w, h, Pop(i)))
  {
    var nid := w.clients[i].conn.value;
    assert LinkOk(i, w.clients[i], w.conns) && ReadOk(i, w.clients[i], w.conns, h);
    PoppedOk(w, h, i);
    OneReads(w, DoPop(w, i), h, Record(w, h, Pop(i)), i, nid);
  }

  lemma ConnectReads(w: World, h: History, i: nat, fd: nat)
    requires Inv(w) && AllRead(w, h) && Enabled(w, Connect(i, fd))
    ensures AllRead(DoConnect(w, i, fd), Record(w, h, Connect(i, fd)))
  {
    var v, g := DoConnect(w, i, fd), Record(w, h, Connect(i, fd));
    forall x | 0 <= x < |v.clients| ensures ReadOk(x, v.clients[x], v.conns, g) {
      assert ReadOk(x, w.clients[x], w.conns, h) && LinkOk(x, w.clients[x], w.conns);
    }
  }

  // ---------- the connector sends down ----------

  /** Replies, as long as they are owed: none of them is data. */
  lemma RepliesAreNoData(cl: C.Client, c: Conn, d: Conn, downs: seq<CsMsg>)
    requires Linked(cl, c) && c.k < 3 && d.down == c.down + downs && d.k == c.k + |downs| && d.got == c.got
    ensures Coming(cl, d) == Coming(cl, c) == []
  {
    assert Waiting(cl, d) == Waiting(cl, c) + downs;
  }

  /** Data: it comes last. */
  lemma DataComesLast(cl: C.Client, c: Conn, d: Conn, downs: seq<CsMsg>)
    requires 0 <= c.k - c.got <= |Waiting(cl, c)| && c.k == d.k && d.down == c.down + downs && d.got == c.got
    ensures Datas(Coming(cl, d)) == Datas(Coming(cl, c)) + Datas(downs)
  {
    Joined(cl.recvq, c.down, downs);
    TailGrows(Waiting(cl, c), downs, c.k - c.got);
    DatasAppend(Coming(cl, c), downs);
  }

  lemma TailGrows<T>(a: seq<T>, b: seq<T>, n: nat)
    requires n <= |a|
    ensures (a + b)[n..] == a[n..] + b
  {
  }

  /** A client's message sends no data down. */
  lemma FrontSendsReplies(c: Conn, pos: nat, used: nat, frontOk: bool, backOk: bool, cap: nat)
    requires ConnOk(c, true, cap) && c.up != [] && used > 0 && T.Gets(c.up[0], cap)
    ensures var o := A.RecvFront(c.session, pos, used, c.up[0], frontOk, backOk);
      Passed(c, AfterFront(c, o), Downs(o.effects), [])
  {
    var o := A.RecvFront(c.session, pos, used, c.up[0], frontOk, backOk);
    if c.k == 3 {
      LineHead(c);
      OkOutcome(c.session, c.up[0], pos, used, frontOk, backOk);
      if o.effects != [] {
        Single(o.effects[0]);
      }
    }
  }

  /** What went down on a connection: replies while they are owed, and then these payloads. */
  ghost predicate Passed(c: Conn, d: Conn, downs: seq<CsMsg>, more: seq<seq<byte>>) {
    && d.down == c.down + downs && d.got == c.got
    && (if c.k < 3 then d.k == c.k + |downs| && more == [] else d.k == c.k && more == Datas(downs))
  }

  lemma RecvFrontReads(w: World, h: History, nid: nat, frontOk: bool, backOk: bool)
    requires Inv(w) && AllRead(w, h) && Enabled(w, RecvFront(nid, frontOk, backOk))
    ensures AllRead(DoRecvFront(w, nid, frontOk, backOk), h)
  {
    var c := w.conns[nid];
    var o := A.RecvFront(c.session, w.pos, |w.backs|, c.up[0], frontOk, backOk);
    FrontSendsReplies(c, w.pos, |w.backs|, frontOk, backOk, w.cap);
    NothingGiven(h, nid);
    SentDown(w, DoRecvFront(w, nid, frontOk, backOk), h, h, nid, Downs(o.effects), []);
  }

  lemma NothingGiven(h: History, nid: nat)
    requires nid < |h.given|
    ensures h == h.(given := h.given[nid := h.given[nid] + []])
  {
    assert h.given[nid] + [] == h.given[nid];
    assert h.given[nid := h.given[nid]] == h.given;
  }

  /** What is sent down on one connection follows on for its client. */
  lemma SentDown(w: World, v: World, h: History, g: History, nid: nat, downs: seq<CsMsg>, more: seq<seq<byte>>)
    requires Inv(w) && AllRead(w, h) && nid < |w.conns| && v.clients == w.clients
    requires |v.conns| == |w.conns| && v.conns == w.conns[nid := v.conns[nid]]
    requires g == h.(given := h.given[nid := h.given[nid] + more])
    requires Passed(w.conns[nid], v.conns[nid], downs, more)
    ensures AllRead(v, g)
  {
    var c, d := w.conns[nid], v.conns[nid];
    forall i | 0 <= i < |w.clients| && w.clients[i].conn == Some(nid) && !w.clients[i].stopped
      ensures ReadOk(i, w.clients[i], v.conns, g)
    {
      var cl := w.clients[i].client;
      assert LinkOk(i, w.clients[i], w.conns) && ReadOk(i, w.clients[i], w.conns, h);
      if c.k < 3 {
        RepliesAreNoData(cl, c, d, downs);
        assert h.given[nid] + [] == h.given[nid];
      } else {
        DataComesLast(cl, c, d, downs);
        Joined(h.read[i], Datas(Coming(cl, c)), more);
      }
    }
    ConnReads(w, v, h, g, nid);
  }

  lemma RecvBackReads(w: World, h: History, b: nat, frontOk: bool, backOk: bool)
    requires Inv(w) && AllRead(w, h) && Enabled(w, RecvBack(b, frontOk, backOk))
    ensures AllRead(DoRecvBack(w, b, frontOk, backOk), Record(w, h, RecvBack(b, frontOk, backOk)))
  {
    var m := w.backs[b].fromB[0];
    HeadIsAwaited(w, b);
    RoutedHome(w, m.fd, m.nid);
    if !Open(w, m.nid) {
      NothingToRead(w, DoRecvBack(w, b, frontOk, backOk), h);
    } else if m.id == S.SsAck {
      AckReads(w, h, b, frontOk, backOk);
    } else {
      OpenedReads(w, h, b, frontOk, backOk);
    }
  }

  lemma AckReads(w: World, h: History, b: nat, frontOk: bool, backOk: bool)
    requires Inv(w) && AllRead(w, h) && b < |w.backs| && w.backs[b].fromB != []
    requires var m := w.backs[b].fromB[0];
      && m.nid < |w.conns| && Open(w, m.nid) && m.fd == w.conns[m.nid].session.fd
      && m.id == S.SsAck && w.conns[m.nid].phase == AckSent(b, m.sid)
    ensures AllRead(DoRecvBack(w, b, frontOk, backOk), h)
  {
    var m := w.backs[b].fromB[0];
    var c := w.conns[m.nid];
    var o := A.RecvBack(c.session, w.pos, |w.backs|, m, frontOk, backOk);
    NothingGiven(h, m.nid);
    SentDown(w, DoRecvBack(w, b, frontOk, backOk), h, h, m.nid, Downs(o.effects), []);
  }

  /** Data goes down as it is, a FIN brings nothing. */
  lemma OpenedSends(c: Conn, b: nat, m: S.SsMsg, pos: nat, used: nat, frontOk: bool, backOk: bool, cap: nat)
    requires ConnOk(c, true, cap) && c.phase.AckDone? && m.sid == c.phase.s && (m.id == S.SsFin || m.id == S.SsData)
    ensures var o := A.RecvBack(c.session, pos, used, m, frontOk, backOk);
      Passed(c, AfterBack(c, b, m, Some(o)), Downs(o.effects),
             if m.id == S.SsData && m.data != [] && frontOk then [m.data] else [])
  {
    OpenedKeeps(c, b, m, pos, used, frontOk, backOk, cap);
    var downs := Downs(A.RecvBack(c.session, pos, used, m, frontOk, backOk).effects);
    if downs != [] {
      assert downs[1..] == [];
    }
  }

  lemma OpenedReads(w: World, h: History, b: nat, frontOk: bool, backOk: bool)
    requires Inv(w) && AllRead(w, h) && b < |w.backs| && w.backs[b].fromB != []
    requires var m := w.backs[b].fromB[0];
      && m.nid < |w.conns| && Open(w, m.nid) && m.fd == w.conns[m.nid].session.fd
      && (m.id == S.SsFin || m.id == S.SsData) && w.conns[m.nid].phase.AckDone? && m.sid == w.conns[m.nid].phase.s
    ensures AllRead(DoRecvBack(w, b, frontOk, backOk), Record(w, h, RecvBack(b, frontOk, backOk)))
  {
    var m := w.backs[b].fromB[0];
    var o := A.RecvBack(w.conns[m.nid].session, w.pos, |w.backs|, m, frontOk, backOk);
    OpenedSends(w.conns[m.nid], b, m, w.pos, |w.backs|, frontOk, backOk, w.cap);
    RecvBackTouches(w, b, frontOk, backOk);
    RecordGives(w, h, b, frontOk, backOk);
    SentDown(w, DoRecvBack(w, b, frontOk, backOk), h, Record(w, h, RecvBack(b, frontOk, backOk)), m.nid,
             Downs(o.effects), if m.id == S.SsData && m.data != [] && frontOk then [m.data] else []);
  }

  lemma RecvBackTouches(w: World, b: nat, frontOk: bool, backOk: bool)
    requires b < |w.backs| && w.backs[b].fromB != []
    requires var m := w.backs[b].fromB[0]; m.nid < |w.conns| && Open(w, m.nid) && m.fd == w.conns[m.nid].session.fd
    ensures var v, m := DoRecvBack(w, b, frontOk, backOk), w.backs[b].fromB[0];
      && v.clients == w.clients && |v.conns| == |w.conns| && v.conns == w.conns[m.nid := v.conns[m.nid]]
      && v.conns[m.nid]
           == AfterBack(w.conns[m.nid], b, m, Some(A.RecvBack(w.conns[m.nid].session, w.pos, |w.backs|, m, frontOk, backOk)))
  {
  }

  lemma RecordGives(w: World, h: History, b: nat, frontOk: bool, backOk: bool)
    requires b < |w.backs| && w.backs[b].fromB != [] && |h.given| == |w.conns| && |h.read| == |w.clients|
    requires var m := w.backs[b].fromB[0]; m.nid < |w.conns| && Open(w, m.nid) && m.fd == w.conns[m.nid].session.fd
    ensures var m := w.backs[b].fromB[0];
      Record(w, h, RecvBack(b, frontOk, backOk))
        == h.(given := h.given[m.nid := h.given[m.nid] + if m.id == S.SsData && m.data != [] && frontOk then [m.data] else []])
  {
    NothingGiven(h, w.backs[b].fromB[0].nid);
  }

  // ---------- every step, every run ----------

  lemma TakeReadsNothing(w: World, h: History, b: nat)
    requires AllRead(w, h) && Enabled(w, Take(b))
    ensures AllRead(DoTake(w, b), h)
  {
    NothingToRead(w, DoTake(w, b), h);
  }

  lemma AnswerReadsNothing(w: World, h: History, b: nat, nid: nat, sid: nat)
    requires AllRead(w, h) && Enabled(w, Ack(b, nid, sid))
    ensures AllRead(DoAck(w, b, nid, sid), h)
  {
    NothingToRead(w, DoAck(w, b, nid, sid), h);
  }

  lemma StepReads(w: World, h: History, a: Action)
    requires Inv(w) && AllRead(w, h)
    ensures AllRead(Apply(w, a), Record(w, h, a))
  {
    if Enabled(w, a) {
      match a
      case Connect(i, fd) => ConnectReads(w, h, i, fd);
      case Update(i, told, env, n) => UpdateStepReads(w, h, i, told, env, n);
      case Push(i, data, env) => PushStepReads(w, h, i, data, env);
      case Pop(i) => PopStepReads(w, h, i);
      case RecvFront(nid, frontOk, backOk) => RecvFrontReads(w, h, nid, frontOk, backOk);
      case RecvBack(b, frontOk, backOk) => RecvBackReads(w, h, b, frontOk, backOk);
      case Close(nid) => NothingToRead(w, DoClose(w, nid), h);
      case Take(b) => TakeReadsNothing(w, h, b);
      case Ack(b, nid, sid) => AnswerReadsNothing(w, h, b, nid, sid);
      case Send(b, nid, fin, data) => NothingToRead(w, DoSend(w, b, nid, fin, data), h);
    }
  }

  lemma {:induction false} RunReads(w: World, h: History, actions: seq<Action>)
    requires Inv(w) && AllRead(w, h)
    ensures Inv(Run(w, actions)) && AllRead(Run(w, actions), RunHistory(w, h, actions))
    decreases |actions|
  {
    if actions != [] {
      StepKeeps(w, actions[0]);
      StepReads(w, h, actions[0]);
      RunReads(Apply(w, actions[0]), Record(w, h, actions[0]), actions[1..]);
    }
  }

  /** Downstream order: over every run, what a client's application has peeked and popped on its
      connection, followed by what is still in its buffer or on the way, is what was given to the
      session to send down: in order, none lost, none twice.  After a failed Update it is still a
      first part of it. */
  lemma ReadInOrder(start: World, actions: seq<Action>, i: nat)
    requires Starting(start) && i < |Run(start, actions).clients| && Run(start, actions).clients[i].conn.Some?
    ensures var w, h := Run(start, actions), RunHistory(start, NoHistory(start), actions);
      var nid, cl := w.clients[i].conn.value, w.clients[i].client;
      && i < |h.read| && nid < |h.given| && nid < |w.conns| && h.read[i] <= h.given[nid]
      && (!w.clients[i].stopped ==> h.given[nid] == h.read[i] + Datas(Coming(cl, w.conns[nid])))
      && (!w.clients[i].stopped && cl.state == C.Done ==> Coming(cl, w.conns[nid]) == cl.recvq + w.conns[nid].down)
  {
    StartingInv(start);
    RunReads(start, NoHistory(start), actions);
    var w, h := Run(start, actions), RunHistory(start, NoHistory(start), actions);
    assert ReadOk(i, w.clients[i], w.conns, h) && LinkOk(i, w.clients[i], w.conns);
    var q := w.clients[i].client.recvq + w.conns[w.clients[i].conn.value].down;
    assert q[0..] == q;
  }

  /** So what a DONE client is shown next is the next payload given, and a pop takes that one. */
  lemma NextIsShown(start: World, actions: seq<Action>, i: nat)
    requires Starting(start) && Attached(Run(start, actions), i)
    requires var cl := Run(start, actions).clients[i].client; cl.state == C.Done && cl.recvq != []
    ensures var w, h := Run(start, actions), RunHistory(start, NoHistory(start), actions);
      var nid, cl := w.clients[i].conn.value, w.clients[i].client;
      var (peeked, code, data) := C.Peek(cl);
      && i < |h.read| && nid < |h.given| && |h.read[i]| < |h.given[nid]| && code == 0 && data == Some(h.given[nid][|h.read[i]|])
      && C.Pop(peeked).1 == 0 && C.Pop(peeked).0.recvq == cl.recvq[1..]
  {
    ReadInOrder(start, actions, i);
    StartingInv(start);
    RunKeeps(start, actions);
    var w, h := Run(start, actions), RunHistory(start, NoHistory(start), actions);
    assert LinkOk(i, w.clients[i], w.conns);
    var nid, cl := w.clients[i].conn.value, w.clients[i].client;
    var q := cl.recvq + w.conns[nid].down;
    assert q[0] == cl.recvq[0];
    assert h.given[nid][|h.read[i]|] == A.DataOf(q[0]);
  }
}
