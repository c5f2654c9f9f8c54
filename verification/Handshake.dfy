/** The connector protocol as a whole: an invariant over every run of any number of clients,
    connections and backends, and what follows from it. */
module Handshake {
  import opened Bytes
  import opened ClientMessages
  import C = ClientProtocol
  import S = ConnectorSession
  import A = ConnectorApp
  import R = ConnectorRuns
  import K = SocketBuffer
  import T = Transport
  import opened HandshakeWorld
  import opened HandshakeConn
  import opened HandshakeBacks

  // ---------- the invariant ----------

  ghost function Views(conns: seq<Conn>): (vs: seq<View>)
    ensures |vs| == |conns|
    ensures forall i :: 0 <= i < |vs| ==> vs[i] == View(conns[i].session.fd, conns[i].phase)
  {
    seq(|conns|, i requires 0 <= i < |conns| => View(conns[i].session.fd, conns[i].phase))
  }

  predicate InRange(p: Phase, n: nat) {
    p.NoSyn? || p.b < n
  }

  ghost predicate ConnsOk(w: World) {
    forall nid :: 0 <= nid < |w.conns| ==>
      && w.conns[nid].session.nid == nid && w.conns[nid].owner < |w.clients|
      && ConnOk(w.conns[nid], Open(w, nid), w.cap) && InRange(w.conns[nid].phase, |w.backs|)
  }

  ghost predicate PoolOk(w: World) {
    forall fd :: fd in w.pool ==> w.pool[fd] < |w.conns| && w.conns[w.pool[fd]].session.fd == fd
  }

  ghost predicate LinkOk(i: nat, h: Holder, conns: seq<Conn>) {
    && h.client.seqno >= 1
    && (h.conn.Some? ==> h.conn.value < |conns| && conns[h.conn.value].owner == i
                         && (!h.stopped ==> Linked(h.client, conns[h.conn.value])))
  }

  ghost predicate LinksOk(w: World) {
    forall i :: 0 <= i < |w.clients| ==> LinkOk(i, w.clients[i], w.conns)
  }

  ghost predicate BacksOk(backs: seq<Back>, vs: seq<View>) {
    forall b :: 0 <= b < |backs| ==> BackOk(backs[b], b, vs)
  }

  ghost predicate Inv(w: World) {
    && |w.backs| >= 1 && ConnsOk(w) && PoolOk(w) && LinksOk(w) && BacksOk(w.backs, Views(w.conns))
    && R.Rotating(w.picks, w.pos, |w.backs|)
  }

  lemma StartingInv(w: World)
    requires Starting(w)
    ensures Inv(w)
  {
    forall b | 0 <= b < |w.backs| ensures BackOk(w.backs[b], b, Views(w.conns)) {
      assert w.backs[b] == IDLE;
    }
  }

  // ---------- frames ----------

  /** One connection changes, and may be closed: the rest of the table is as it was. */
  lemma OneConnChanges(w: World, v: World, nid: nat, d: Conn, dead: bool)
    requires ConnsOk(w) && PoolOk(w) && nid < |w.conns| && |v.clients| == |w.clients| && |v.backs| == |w.backs|
    requires v.cap == w.cap
    requires v.conns == w.conns[nid := d] && d.session.fd == w.conns[nid].session.fd && d.session.nid == nid
    requires d.owner == w.conns[nid].owner && InRange(d.phase, |w.backs|)
    requires v.pool == Killed(w.pool, d.session.fd, dead) && (dead ==> Open(w, nid))
    requires ConnOk(d, Open(w, nid) && !dead, w.cap)
    ensures ConnsOk(v) && PoolOk(v)
  {
    forall x | 0 <= x < |v.conns| && x != nid ensures Open(v, x) == Open(w, x) && v.conns[x] == w.conns[x] {
    }
    assert Open(v, nid) == (Open(w, nid) && !dead);
  }

  /** The connector's end of one connection moves on; its client stays linked. */
  lemma LinksFollow(w: World, v: World, nid: nat, d: Conn, downs: seq<CsMsg>)
    requires LinksOk(w) && nid < |w.conns| && v.clients == w.clients && v.conns == w.conns[nid := d]
    requires Follows(w.conns[nid], d, downs)
    ensures LinksOk(v)
  {
    forall i | 0 <= i < |v.clients| ensures LinkOk(i, v.clients[i], v.conns) {
      var h := w.clients[i];
      assert LinkOk(i, h, w.conns);
      if h.conn == Some(nid) && !h.stopped {
        var c := w.conns[nid];
        assert h.client.recvq + d.down == (h.client.recvq + c.down) + downs;
      }
    }
  }

  /** A client and its own connection change together. */
  lemma LinksTogether(w: World, v: World, i: nat, nid: nat, h: Holder, d: Conn)
    requires LinksOk(w) && i < |w.clients| && nid < |w.conns| && w.clients[i].conn == Some(nid)
    requires v.clients == w.clients[i := h] && v.conns == w.conns[nid := d] && d.owner == i
    requires LinkOk(i, h, v.conns)
    ensures LinksOk(v)
  {
    assert LinkOk(i, w.clients[i], w.conns);
    forall x | 0 <= x < |v.clients| ensures LinkOk(x, v.clients[x], v.conns) {
      assert LinkOk(x, w.clients[x], w.conns);
    }
  }

  lemma SameViews(conns: seq<Conn>, nid: nat, d: Conn)
    requires nid < |conns| && d.phase == conns[nid].phase && d.session.fd == conns[nid].session.fd
    ensures Views(conns[nid := d]) == Views(conns)
  {
  }

  lemma NewView(conns: seq<Conn>, nid: nat, d: Conn)
    requires nid < |conns| && d.session.fd == conns[nid].session.fd
    ensures Views(conns[nid := d]) == Views(conns)[nid := Views(conns)[nid].(phase := d.phase)]
  {
  }

  lemma DeliverOne(backs: seq<Back>, r: Routed)
    requires r.b < |backs|
    ensures Deliver(backs, [r]) == backs[r.b := backs[r.b].(toB := backs[r.b].toB + [r.m])]
  {
    assert [r][1..] == [];
  }

  /** One backend changes by a lemma of its own; the others see a connection they have nothing
      to do with move on. */
  lemma OneBackChanges(backs: seq<Back>, b: nat, back: Back, vs: seq<View>, nid: nat, p: Phase)
    requires BacksOk(backs, vs) && b < |backs| && nid < |vs|
    requires vs[nid].phase.NoSyn? || (!vs[nid].phase.AckDone? && vs[nid].phase.b == b)
    requires !p.NoSyn? && p.b == b
    requires BackOk(back, b, vs[nid := vs[nid].(phase := p)])
    ensures BacksOk(backs[b := back], vs[nid := vs[nid].(phase := p)])
  {
    forall x | 0 <= x < |backs| && x != b ensures BackOk(backs[x], x, vs[nid := vs[nid].(phase := p)]) {
      ElsewhereKeeps(backs[x], x, vs, nid, p);
    }
  }

  // ---------- every step keeps it ----------

  lemma NewConnOk(w: World, i: nat, fd: nat)
    requires Inv(w) && i < |w.clients| && fd !in w.pool
    ensures var v := DoConnect(w, i, fd); ConnsOk(v) && PoolOk(v)
  {
    var v := DoConnect(w, i, fd);
    var nid := |w.conns|;
    assert LinkOk(i, w.clients[i], w.conns);
    assert Line(v.conns[nid]) == [] && ConnOk(v.conns[nid], true, w.cap);
    forall x | 0 <= x < |w.conns| ensures Open(v, x) == Open(w, x) && v.conns[x] == w.conns[x] {
    }
    assert Open(v, nid);
  }

  lemma NewLinkOk(w: World, i: nat, fd: nat)
    requires Inv(w) && i < |w.clients| && fd !in w.pool
    ensures LinksOk(DoConnect(w, i, fd))
  {
    var v := DoConnect(w, i, fd);
    assert LinkOk(i, w.clients[i], w.conns);
    assert Linked(v.clients[i].client, v.conns[|w.conns|]);
    forall x | 0 <= x < |v.clients| ensures LinkOk(x, v.clients[x], v.conns) {
      assert LinkOk(x, w.clients[x], w.conns);
    }
  }

  lemma ConnectKeeps(w: World, i: nat, fd: nat)
    requires Inv(w) && i < |w.clients| && fd !in w.pool
    ensures Inv(DoConnect(w, i, fd))
  {
    var v := DoConnect(w, i, fd);
    NewConnOk(w, i, fd);
    NewLinkOk(w, i, fd);
    assert Views(v.conns) == Views(w.conns) + [View(fd, NoSyn)];
    forall b | 0 <= b < |v.backs| ensures BackOk(v.backs[b], b, Views(v.conns)) {
      NewConnKeeps(w.backs[b], b, Views(w.conns), fd);
    }
  }

  /** A client and its end of its connection move; nothing else does. */
  lemma ClientMoves(w: World, v: World, i: nat, nid: nat, h: Holder, d: Conn)
    requires Inv(w) && i < |w.clients| && w.clients[i].conn == Some(nid) && nid < |w.conns|
    requires v == w.(clients := w.clients[i := h], conns := w.conns[nid := d])
    requires d.session == w.conns[nid].session && d.owner == w.conns[nid].owner && d.phase == w.conns[nid].phase
    requires ConnOk(d, Open(w, nid), w.cap) && h.client.seqno >= 1 && h.conn == Some(nid)
    requires !h.stopped ==> Linked(h.client, d)
    ensures Inv(v)
  {
    assert LinkOk(i, w.clients[i], w.conns);
    OneConnChanges(w, v, nid, d, false);
    LinksTogether(w, v, i, nid, h, d);
    SameViews(w.conns, nid, d);
  }

  lemma UpdateStepKeeps(w: World, i: nat, told: bool, env: C.Env, n: nat)
    requires Inv(w) && Enabled(w, Update(i, told, env, n))
    ensures Inv(DoUpdate(w, i, told, env, n))
  {
    var h := w.clients[i];
    var nid := h.conn.value;
    var c := w.conns[nid];
    var e := Receiving(c, env, n);
    var u := C.Step(h.client, told, e);
    assert LinkOk(i, h, w.conns);
    UpdateKeeps(h.client, c, Open(w, nid), told, env, n, w.cap);
    ClientMoves(w, DoUpdate(w, i, told, env, n), i, nid, Holder(u.client, h.conn, u.ret < 0), Updated(h.client, c, told, e));
  }

  lemma PushStepKeeps(w: World, i: nat, data: seq<byte>, env: C.Env)
    requires Inv(w) && Enabled(w, Push(i, data, env))
    ensures Inv(DoPush(w, i, data, env))
  {
    var h := w.clients[i];
    var nid := h.conn.value;
    var c := w.conns[nid];
    var v := DoPush(w, i, data, env);
    assert LinkOk(i, h, w.conns);
    if data == [] {
      assert v.conns == w.conns && v.clients == w.clients;
    } else {
      var p := C.Push(h.client, data, env);
      PushKeeps(h.client, c, Open(w, nid), data, env, w.cap);
      ClientMoves(w, v, i, nid, h.(client := p.0), AfterPush(c, data, p));
    }
  }

  lemma PopStepKeeps(w: World, i: nat)
    requires Inv(w) && Enabled(w, Pop(i))
    ensures Inv(DoPop(w, i))
  {
    var h := w.clients[i];
    var nid := h.conn.value;
    assert LinkOk(i, h, w.conns);
    PopKeeps(h.client, w.conns[nid]);
    assert w.conns[nid := w.conns[nid]] == w.conns;
    var v := DoPop(w, i);
    ClientMoves(w, v, i, nid, v.clients[i], w.conns[nid]);
  }

  lemma RecvFrontKeeps(w: World, nid: nat, frontOk: bool, backOk: bool)
    requires Inv(w) && Enabled(w, RecvFront(nid, frontOk, backOk))
    ensures Inv(DoRecvFront(w, nid, frontOk, backOk))
  {
    var c := w.conns[nid];
    var o := A.RecvFront(c.session, w.pos, |w.backs|, c.up[0], frontOk, backOk);
    var d := AfterFront(c, o);
    var v := DoRecvFront(w, nid, frontOk, backOk);
    FrontKeeps(c, w.pos, |w.backs|, frontOk, backOk, w.cap);
    A.FrontPicks(c.session, w.pos, |w.backs|, c.up[0], frontOk, backOk);
    R.RotatesOn(w.picks, w.pos, |w.backs|, o);
    var ups := Ups(o.effects);
    SentKeeps(w, nid, d, ups);
    OneConnChanges(w, v, nid, d, Kills(o.effects));
    LinksFollow(w, v, nid, d, Downs(o.effects));
  }

  lemma SentKeeps(w: World, nid: nat, d: Conn, ups: seq<Routed>)
    requires Inv(w) && nid < |w.conns| && Sends(w.conns[nid], d, ups, |w.backs|)
    requires d.session.fd == w.conns[nid].session.fd
    ensures var backs := Deliver(w.backs, ups);
      |backs| == |w.backs| && BacksOk(backs, Views(w.conns[nid := d])) && InRange(d.phase, |w.backs|)
  {
    var vs := Views(w.conns);
    if ups == [] {
      SameViews(w.conns, nid, d);
    } else {
      var b, m := ups[0].b, ups[0].m;
      assert ups == [ups[0]];
      DeliverOne(w.backs, ups[0]);
      var back := w.backs[b].(toB := w.backs[b].toB + [m]);
      assert BackOk(w.backs[b], b, vs);
      if m.id == S.SsSyn {
        NewView(w.conns, nid, d);
        SynKeeps(w.backs[b], b, vs, m);
        OneBackChanges(w.backs, b, back, vs, nid, SynSent(b));
      } else {
        SameViews(w.conns, nid, d);
        DataKeeps(w.backs[b], b, vs, m);
      }
    }
  }

  lemma RecvBackKeeps(w: World, b: nat, frontOk: bool, backOk: bool)
    requires Inv(w) && Enabled(w, RecvBack(b, frontOk, backOk))
    ensures Inv(DoRecvBack(w, b, frontOk, backOk))
  {
    var m := w.backs[b].fromB[0];
    var vs := Views(w.conns);
    assert BackOk(w.backs[b], b, vs) && DownOk(m, b, vs);
    if vs[m.nid].phase.AckDone? {
      OpenedRecvKeeps(w, b, frontOk, backOk);
    } else {
      AckRecvKeeps(w, b, frontOk, backOk);
    }
  }

  /** A message for a session that was never known, or is closed, is dropped. */
  lemma RoutedHome(w: World, fd: nat, nid: nat)
    requires ConnsOk(w) && PoolOk(w) && nid < |w.conns| && fd == w.conns[nid].session.fd
    ensures FrontEndByAsyncIds(w, fd, nid) == if Open(w, nid) then Some(nid) else None
  {
  }

  lemma AckRecvKeeps(w: World, b: nat, frontOk: bool, backOk: bool)
    requires Inv(w) && Enabled(w, RecvBack(b, frontOk, backOk))
    requires var m := w.backs[b].fromB[0]; m.nid < |w.conns| && !w.conns[m.nid].phase.AckDone?
    ensures Inv(DoRecvBack(w, b, frontOk, backOk))
  {
    var m := w.backs[b].fromB[0];
    var vs := Views(w.conns);
    var v := DoRecvBack(w, b, frontOk, backOk);
    assert BackOk(w.backs[b], b, vs);
    assert DownOk(m, b, vs);
    AckTaken(w.backs[b], b, vs);
    var back := w.backs[b].(fromB := w.backs[b].fromB[1..]);
    OneBackChanges(w.backs, b, back, vs, m.nid, AckDone(b, m.sid));
    RoutedHome(w, m.fd, m.nid);
    var c := w.conns[m.nid];
    if Open(w, m.nid) {
      AckKeeps(c, b, m, w.pos, |w.backs|, frontOk, backOk, w.cap);
      A.BackPicks(c.session, w.pos, |w.backs|, m, frontOk, backOk);
      var o := A.RecvBack(c.session, w.pos, |w.backs|, m, frontOk, backOk);
      var d := AfterBack(c, b, m, Some(o));
      R.RotatesOn(w.picks, w.pos, |w.backs|, o);
      NewView(w.conns, m.nid, d);
      OneConnChanges(w, v, m.nid, d, Kills(o.effects));
      LinksFollow(w, v, m.nid, d, Downs(o.effects));
    } else {
      var d := AfterBack(c, b, m, None);
      NewView(w.conns, m.nid, d);
      NothingFollows(c, d);
      OneConnChanges(w, v, m.nid, d, false);
      LinksFollow(w, v, m.nid, d, []);
    }
  }

  lemma OpenedRecvKeeps(w: World, b: nat, frontOk: bool, backOk: bool)
    requires Inv(w) && Enabled(w, RecvBack(b, frontOk, backOk))
    requires var m := w.backs[b].fromB[0]; m.nid < |w.conns| && w.conns[m.nid].phase.AckDone?
    ensures Inv(DoRecvBack(w, b, frontOk, backOk))
  {
    var m := w.backs[b].fromB[0];
    var vs := Views(w.conns);
    var v := DoRecvBack(w, b, frontOk, backOk);
    assert BackOk(w.backs[b], b, vs);
    OtherTaken(w.backs[b], b, vs);
    RoutedHome(w, m.fd, m.nid);
    var c := w.conns[m.nid];
    if Open(w, m.nid) {
      OpenedKeeps(c, b, m, w.pos, |w.backs|, frontOk, backOk, w.cap);
      A.BackPicks(c.session, w.pos, |w.backs|, m, frontOk, backOk);
      var o := A.RecvBack(c.session, w.pos, |w.backs|, m, frontOk, backOk);
      var d := AfterBack(c, b, m, Some(o));
      R.RotatesOn(w.picks, w.pos, |w.backs|, o);
      SameViews(w.conns, m.nid, d);
      OneConnChanges(w, v, m.nid, d, Kills(o.effects));
      LinksFollow(w, v, m.nid, d, Downs(o.effects));
    } else {
      assert w.conns[m.nid := c] == w.conns;
      OneConnChanges(w, v, m.nid, c, false);
    }
  }

  lemma CloseKeeps(w: World, nid: nat)
    requires Inv(w) && nid < |w.conns|
    ensures Inv(DoClose(w, nid))
  {
    assert w.conns[nid := w.conns[nid]] == w.conns;
    OneConnChanges(w, DoClose(w, nid), nid, w.conns[nid], Open(w, nid));
  }

  lemma TakeKeeps(w: World, b: nat)
    requires Inv(w) && Enabled(w, Take(b))
    ensures Inv(DoTake(w, b))
  {
    var m := w.backs[b].toB[0];
    var vs := Views(w.conns);
    var v := DoTake(w, b);
    assert BackOk(w.backs[b], b, vs) && UpOk(m, b, vs);
    if m.id == S.SsSyn {
      TakeSynKeeps(w.backs[b], b, vs);
      PhaseMoves(w, v, m.nid, Asked(b));
      OneBackChanges(w.backs, b, v.backs[b], vs, m.nid, Asked(b));
    } else {
      TakeDataKeeps(w.backs[b], b, vs);
      assert w.conns[m.nid := w.conns[m.nid]] == w.conns;
      OneConnChanges(w, v, m.nid, w.conns[m.nid], false);
    }
  }

  /** The backend's own progress: only the phase of the connection changes. */
  lemma PhaseMoves(w: World, v: World, nid: nat, p: Phase)
    requires Inv(w) && nid < |w.conns| && v.clients == w.clients && v.pool == w.pool && |v.backs| == |w.backs|
    requires v.cap == w.cap && v.conns == w.conns[nid := w.conns[nid].(phase := p)] && InRange(p, |w.backs|)
    requires (w.conns[nid].phase.SynSent? && p.Asked?) || (w.conns[nid].phase.Asked? && p.AckSent?)
    ensures ConnsOk(v) && PoolOk(v) && LinksOk(v)
    ensures Views(v.conns) == Views(w.conns)[nid := Views(w.conns)[nid].(phase := p)]
  {
    var d := w.conns[nid].(phase := p);
    NewView(w.conns, nid, d);
    OneConnChanges(w, v, nid, d, false);
    NothingFollows(w.conns[nid], d);
    LinksFollow(w, v, nid, d, []);
  }

  lemma AnswerStepKeeps(w: World, b: nat, nid: nat, sid: nat)
    requires Inv(w) && Enabled(w, Ack(b, nid, sid))
    ensures Inv(DoAck(w, b, nid, sid))
  {
    var vs := Views(w.conns);
    var v := DoAck(w, b, nid, sid);
    assert BackOk(w.backs[b], b, vs);
    AnswerKeeps(w.backs[b], b, vs, nid, sid);
    PhaseMoves(w, v, nid, AckSent(b, sid));
    OneBackChanges(w.backs, b, v.backs[b], vs, nid, AckSent(b, sid));
  }

  lemma OnlyBacksChange(w: World, v: World)
    requires Inv(w) && v == w.(backs := v.backs) && |v.backs| == |w.backs| && BacksOk(v.backs, Views(w.conns))
    ensures Inv(v)
  {
    forall x | 0 <= x < |v.conns| ensures Open(v, x) == Open(w, x) {
    }
  }

  lemma SendStepKeeps(w: World, b: nat, nid: nat, fin: bool, data: seq<byte>)
    requires Inv(w) && Enabled(w, Send(b, nid, fin, data))
    ensures Inv(DoSend(w, b, nid, fin, data))
  {
    var vs := Views(w.conns);
    assert BackOk(w.backs[b], b, vs);
    SendKeeps(w.backs[b], b, vs, nid, fin, data);
    OnlyBacksChange(w, DoSend(w, b, nid, fin, data));
  }

  lemma StepKeeps(w: World, a: Action)
    requires Inv(w)
    ensures Inv(Apply(w, a))
  {
    if Enabled(w, a) {
      match a
      case Connect(i, fd) => ConnectKeeps(w, i, fd);
      case Update(i, told, env, n) => UpdateStepKeeps(w, i, told, env, n);
      case Push(i, data, env) => PushStepKeeps(w, i, data, env);
      case Pop(i) => PopStepKeeps(w, i);
      case RecvFront(nid, frontOk, backOk) => RecvFrontKeeps(w, nid, frontOk, backOk);
      case RecvBack(b, frontOk, backOk) => RecvBackKeeps(w, b, frontOk, backOk);
      case Close(nid) => CloseKeeps(w, nid);
      case Take(b) => TakeKeeps(w, b);
      case Ack(b, nid, sid) => AnswerStepKeeps(w, b, nid, sid);
      case Send(b, nid, fin, data) => SendStepKeeps(w, b, nid, fin, data);
    }
  }

  lemma {:induction false} RunKeeps(w: World, actions: seq<Action>)
    requires Inv(w)
    ensures Inv(Run(w, actions))
    decreases |actions|
  {
    if actions != [] {
      StepKeeps(w, actions[0]);
      RunKeeps(Apply(w, actions[0]), actions[1..]);
    }
  }

  // ---------- what every run shows ----------

  /** Agreement: whenever a client is DONE, the backend its session was started with has
      acknowledged it, and its session is in STATE_OK under that session id unless its
      connection has been closed since. */
  lemma DoneMeansAgreed(start: World, actions: seq<Action>, i: nat)
    requires Starting(start)
    ensures var w := Run(start, actions);
      Attached(w, i) && w.clients[i].client.state == C.Done ==>
        var nid := w.clients[i].conn.value;
        var c := w.conns[nid];
        && c.owner == i && c.phase.AckDone? && c.phase.b < |w.backs|
        && nid in w.backs[c.phase.b].acked && w.backs[c.phase.b].acked[nid] == c.phase.s
        && (Open(w, nid) ==> c.session.state == S.Ok && c.session.sid == c.phase.s)
  {
    StartingInv(start);
    RunKeeps(start, actions);
    var w := Run(start, actions);
    if Attached(w, i) && w.clients[i].client.state == C.Done {
      var nid := w.clients[i].conn.value;
      assert LinkOk(i, w.clients[i], w.conns);
      var b := w.conns[nid].phase.b;
      assert BackOk(w.backs[b], b, Views(w.conns));
      assert Holds(w.backs[b], b, nid, Views(w.conns)[nid].phase);
    }
  }

  /** Without a wrong body at hand an Update fails only by a failing call on the socket. */
  lemma NetworkFails(cl: C.Client, told: bool, e: C.Env)
    requires cl.state !in {C.Inited, C.Fini} && SockOk(cl.state, cl.sock)
    requires var q := C.Received(cl, e);
      && (q != [] && cl.state == C.KeySyning ==> q[0].bodyid == SYNACK)
      && (q != [] && cl.state == C.Authing ==> q[0].bodyid == PASSPORT)
      && (q != [] && cl.state == C.Ready ==> q[0].bodyid == START_APP)
    ensures C.Step(cl, told, e).ret < 0 ==>
      || e.check.Refused? || e.recv.RecvFailure? || e.recv.PeerGone? || e.push != K.NORMAL || e.send.SendFailure?
  {
    if cl.state in {C.KeySyning, C.Authing, C.Ready} {
      C.WhenTheHandshakeFails(cl, told, e);
    }
  }

  /** The client never meets a body it does not expect, and never data before START_APP: in every
      reachable state an Update fails for the network's sake only. */
  lemma OnlyTheNetworkFails(start: World, actions: seq<Action>, i: nat, told: bool, env: C.Env, n: nat)
    requires Starting(start) && Enabled(Run(start, actions), Update(i, told, env, n))
    ensures var w := Run(start, actions);
      var cl := w.clients[i].client;
      var e := Receiving(w.conns[w.clients[i].conn.value], env, n);
      var q := C.Received(cl, e);
      && (q != [] && cl.state == C.KeySyning ==> q[0].bodyid == SYNACK)
      && (q != [] && cl.state == C.Authing ==> q[0].bodyid == PASSPORT)
      && (q != [] && cl.state == C.Ready ==> q[0].bodyid == START_APP)
      && (C.Step(cl, told, e).ret < 0 ==>
            || env.check.Refused? || env.recv.RecvFailure? || env.recv.PeerGone?
            || env.push != K.NORMAL || env.send.SendFailure?)
  {
    StartingInv(start);
    RunKeeps(start, actions);
    var w := Run(start, actions);
    assert LinkOk(i, w.clients[i], w.conns);
    var cl := w.clients[i].client;
    var c := w.conns[w.clients[i].conn.value];
    NextIsExpected(cl, c, env, n, w.cap);
    NetworkFails(cl, told, Receiving(c, env, n));
  }

  /** The payloads pushed, whether or not the buffer took them. */
  function Pushed(attempts: seq<Attempt>): seq<seq<byte>> {
    if attempts == [] then [] else [attempts[0].data] + Pushed(attempts[1..])
  }

  lemma {:induction false} RefusedPushesCut(attempts: seq<Attempt>)
    ensures BeforeRefusal(attempts) <= Pushed(attempts) && |Pushed(attempts)| == |attempts|
    ensures BeforeRefusal(attempts) == Pushed(attempts) <==> forall i :: 0 <= i < |attempts| ==> attempts[i].queued
    decreases |attempts|
  {
    if attempts != [] {
      RefusedPushesCut(attempts[1..]);
      var a, p := BeforeRefusal(attempts[1..]), Pushed(attempts[1..]);
      assert Pushed(attempts)[1..] == p;
      if attempts[0].queued {
        assert BeforeRefusal(attempts)[1..] == a;
        forall i | 0 <= i < |attempts| && !attempts[i].queued ensures !attempts[1..][i - 1].queued {
        }
      }
    }
  }

  /** Upstream order: on every connection, a first one or one after Resume, what the session has
      tried to forward is a prefix of what its client pushed there, in order, without gap or
      repeat.  Once an open session has taken everything that was sent, it is all of the pushes if
      and only if the send buffer refused none and holds none back: the number a refused push burns
      shuts out all that follow, and what a failed send or a Resume leaves in the buffer is lost. */
  lemma ForwardedInOrder(start: World, actions: seq<Action>, nid: nat)
    requires Starting(start) && nid < |Run(start, actions).conns|
    ensures var w := Run(start, actions);
      var c := w.conns[nid];
      && c.forwarded <= BeforeRefusal(c.attempts) <= Pushed(c.attempts)
      && (Open(w, nid) && c.session.state == S.Ok && c.up == [] ==>
            && c.forwarded + Datas(S.Accepted(c.session.lastSeq, c.unsent)) == BeforeRefusal(c.attempts)
            && (c.forwarded == Pushed(c.attempts) <==>
                  (forall i :: 0 <= i < |c.attempts| ==> c.attempts[i].queued) && c.unsent == []))
  {
    StartingInv(start);
    RunKeeps(start, actions);
    var w := Run(start, actions);
    var c := w.conns[nid];
    RefusedPushesCut(c.attempts);
    if Open(w, nid) && c.session.state == S.Ok && c.up == [] {
      assert Line(c) == c.unsent;
      if c.unsent == [] {
        assert c.forwarded + [] == c.forwarded;
      }
    }
  }

  /** No client is on this connection any more. */
  predicate Abandoned(w: World, nid: nat) {
    forall i :: 0 <= i < |w.clients| ==> w.clients[i].conn != Some(nid)
  }

  /** Its send buffer and what was pushed on it. */
  predicate SameBuffer(w: World, v: World, nid: nat)
    requires nid < |w.conns|
  {
    nid < |v.conns| && v.conns[nid].unsent == w.conns[nid].unsent && v.conns[nid].attempts == w.conns[nid].attempts
  }

  lemma OneConnSameBuffer(w: World, v: World, x: nat, nid: nat)
    requires nid < |w.conns| == |v.conns| && x < |w.conns| && v.conns == w.conns[x := v.conns[x]]
    requires v.conns[x].unsent == w.conns[x].unsent && v.conns[x].attempts == w.conns[x].attempts
    ensures SameBuffer(w, v, nid)
  {
  }

  lemma FrontLeavesBuffer(c: Conn, o: S.Outcome)
    requires c.up != []
    ensures AfterFront(c, o).unsent == c.unsent && AfterFront(c, o).attempts == c.attempts
  {
  }

  lemma BackLeavesBuffer(c: Conn, b: nat, m: S.SsMsg, o: Option<S.Outcome>)
    ensures AfterBack(c, b, m, o).unsent == c.unsent && AfterBack(c, b, m, o).attempts == c.attempts
  {
  }

  lemma RecvFrontLeavesBuffers(w: World, x: nat, frontOk: bool, backOk: bool, nid: nat)
    requires nid < |w.conns| && x < |w.conns| && w.conns[x].up != []
    ensures var v := DoRecvFront(w, x, frontOk, backOk); v.clients == w.clients && SameBuffer(w, v, nid)
  {
    var c := w.conns[x];
    FrontLeavesBuffer(c, A.RecvFront(c.session, w.pos, |w.backs|, c.up[0], frontOk, backOk));
    OneConnSameBuffer(w, DoRecvFront(w, x, frontOk, backOk), x, nid);
  }

  lemma RecvBackLeavesBuffers(w: World, b: nat, frontOk: bool, backOk: bool, nid: nat)
    requires nid < |w.conns| && b < |w.backs| && w.backs[b].fromB != [] && w.backs[b].fromB[0].nid < |w.conns|
    ensures var v := DoRecvBack(w, b, frontOk, backOk); v.clients == w.clients && SameBuffer(w, v, nid)
  {
    var m := w.backs[b].fromB[0];
    var c := w.conns[m.nid];
    BackLeavesBuffer(c, b, m, None);
    BackLeavesBuffer(c, b, m, Some(A.RecvBack(c.session, w.pos, |w.backs|, m, frontOk, backOk)));
    OneConnSameBuffer(w, DoRecvBack(w, b, frontOk, backOk), m.nid, nid);
  }

  lemma TakeLeavesBuffers(w: World, b: nat, nid: nat)
    requires nid < |w.conns| && b < |w.backs| && w.backs[b].toB != []
    ensures var v := DoTake(w, b); v.clients == w.clients && SameBuffer(w, v, nid)
  {
    var m := w.backs[b].toB[0];
    if m.id == S.SsSyn && m.nid < |w.conns| {
      OneConnSameBuffer(w, DoTake(w, b), m.nid, nid);
    }
  }

  /** A client acts on a connection of its own. */
  lemma ElsewhereSameBuffer(w: World, v: World, i: nat, nid: nat)
    requires Attached(w, i) && nid < |w.conns| && Abandoned(w, nid)
    requires |v.conns| == |w.conns| && v.conns == w.conns[w.clients[i].conn.value := v.conns[w.clients[i].conn.value]]
    requires |v.clients| == |w.clients| && v.clients == w.clients[i := v.clients[i]] && v.clients[i].conn == w.clients[i].conn
    ensures SameBuffer(w, v, nid) && Abandoned(v, nid)
  {
    assert w.clients[i].conn.value != nid;
  }

  lemma AbandonedStays(w: World, a: Action, nid: nat)
    requires Inv(w) && nid < |w.conns| && Abandoned(w, nid)
    ensures SameBuffer(w, Apply(w, a), nid) && Abandoned(Apply(w, a), nid)
  {
    if Enabled(w, a) {
      match a
      case Connect(i, fd) =>
      case Update(i, told, env, n) => ElsewhereSameBuffer(w, DoUpdate(w, i, told, env, n), i, nid);
      case Push(i, data, env) => ElsewhereSameBuffer(w, DoPush(w, i, data, env), i, nid);
      case Pop(i) =>
      case RecvFront(x, frontOk, backOk) => RecvFrontLeavesBuffers(w, x, frontOk, backOk, nid);
      case RecvBack(b, frontOk, backOk) =>
        HeadIsAwaited(w, b);
        RecvBackLeavesBuffers(w, b, frontOk, backOk, nid);
      case Close(x) =>
      case Take(b) => TakeLeavesBuffers(w, b, nid);
      case Ack(b, x, sid) => OneConnSameBuffer(w, DoAck(w, b, x, sid), x, nid);
      case Send(b, x, fin, data) =>
    }
  }

  /** What Resume leaves behind in the send buffer never leaves it: the pushes that were accepted
      but not sent are lost, though none was refused. */
  lemma {:induction false} LeftBehindForGood(w: World, actions: seq<Action>, nid: nat)
    requires Inv(w) && nid < |w.conns| && Abandoned(w, nid)
    ensures SameBuffer(w, Run(w, actions), nid)
    decreases |actions|
  {
    if actions != [] {
      StepKeeps(w, actions[0]);
      AbandonedStays(w, actions[0], nid);
      LeftBehindForGood(Apply(w, actions[0]), actions[1..], nid);
    }
  }

  /** The k-th backend turned to, over all handshakes and all data of all sessions of a run, is
      k mod n; every index is in bounds and no two backends are more than one apart in use. */
  lemma BackendsTakeTurns(start: World, actions: seq<Action>, k: nat, a: nat, b: nat)
    requires Starting(start) && a < |start.backs| && b < |start.backs|
    ensures var picks, n := Run(start, actions).picks, |start.backs|;
      && picks == S.Choices(0, n, |picks|)
      && (k < |picks| ==> picks[k] == k % n < n)
      && -1 <= S.Count(picks, a) - S.Count(picks, b) <= 1
  {
    StartingInv(start);
    RunKeeps(start, actions);
    RunKeepsNames(start, actions);
    var picks, n := Run(start, actions).picks, |start.backs|;
    if k < |picks| {
      S.ChoicesRotate(0, n, |picks|, k);
    }
    S.BackendsAreBalanced(0, n, |picks|, a, b);
  }

  /** Routing under fd reuse: a message of a backend carries the (fd, nid) of the connection it
      was stamped for; it reaches that connection's session if this is still open, and nothing
      at all otherwise, even when the fd belongs to another connection by now. */
  lemma MessagesReachTheirOwnSession(start: World, actions: seq<Action>, b: nat, k: nat)
    requires Starting(start) && b < |start.backs|
    ensures var w := Run(start, actions);
      |w.backs| == |start.backs| && (k < |w.backs[b].fromB| ==>
        var m := w.backs[b].fromB[k];
        && m.nid < |w.conns| && m.fd == w.conns[m.nid].session.fd && w.conns[m.nid].session.nid == m.nid
        && FrontEndByAsyncIds(w, m.fd, m.nid) == if Open(w, m.nid) then Some(m.nid) else None)
  {
    StartingInv(start);
    RunKeeps(start, actions);
    RunKeepsNames(start, actions);
    var w := Run(start, actions);
    if k < |w.backs[b].fromB| {
      var m := w.backs[b].fromB[k];
      assert BackOk(w.backs[b], b, Views(w.conns));
      assert DownOk(m, b, Views(w.conns));
      RoutedHome(w, m.fd, m.nid);
    }
  }

  /** The next message of a backend is the ACK its session waits for, or, once that has been
      taken, data or FIN under the session id it carried. */
  lemma HeadIsAwaited(w: World, b: nat)
    requires Inv(w) && b < |w.backs| && w.backs[b].fromB != []
    ensures var m := w.backs[b].fromB[0];
      m.nid < |w.conns| && m.fd == w.conns[m.nid].session.fd && Fitting(w.conns[m.nid].phase, b, m)
  {
    var m, vs := w.backs[b].fromB[0], Views(w.conns);
    assert BackOk(w.backs[b], b, vs);
    assert DownOk(m, b, vs);
    if vs[m.nid].phase.AckDone? {
      OtherTaken(w.backs[b], b, vs);
    } else {
      AckTaken(w.backs[b], b, vs);
    }
  }

  predicate Fitting(p: Phase, b: nat, m: S.SsMsg) {
    || (p == AckSent(b, m.sid) && m.id == S.SsAck)
    || (p.AckDone? && m.sid == p.s && (m.id == S.SsFin || m.id == S.SsData))
  }

  /** So, if its session is open, it meets it in the very state it is meant for, and data is never
      the reason a connection is destroyed. */
  lemma HeadFitsItsSession(start: World, actions: seq<Action>, b: nat)
    requires Starting(start)
    ensures var w := Run(start, actions);
      b < |w.backs| && w.backs[b].fromB != [] ==>
        var m := w.backs[b].fromB[0];
        m.nid < |w.conns| && (Open(w, m.nid) ==>
          var s := w.conns[m.nid].session;
          && (m.id == S.SsAck ==> s.state == S.SynAck)
          && (m.id != S.SsAck ==> m.id in {S.SsData, S.SsFin} && s.state == S.Ok && s.sid == m.sid))
  {
    StartingInv(start);
    RunKeeps(start, actions);
    var w := Run(start, actions);
    if b < |w.backs| && w.backs[b].fromB != [] {
      HeadIsAwaited(w, b);
    }
  }

  /** A connection keeps its fd, its nid and its owner for good, and a closed one stays closed. */
  ghost predicate SameNames(w: World, v: World) {
    && |v.backs| == |w.backs| && |v.conns| >= |w.conns| && v.cap == w.cap
    && forall nid :: 0 <= nid < |w.conns| ==>
      && v.conns[nid].session.fd == w.conns[nid].session.fd && v.conns[nid].owner == w.conns[nid].owner
      && (Open(v, nid) ==> Open(w, nid))
  }

  lemma {:induction false} DeliverLength(backs: seq<Back>, ups: seq<Routed>)
    ensures |Deliver(backs, ups)| == |backs|
    decreases |ups|
  {
    if ups != [] && ups[0].b < |backs| {
      DeliverLength(backs[ups[0].b := backs[ups[0].b].(toB := backs[ups[0].b].toB + [ups[0].m])], ups[1..]);
    } else if ups != [] {
      DeliverLength(backs, ups[1..]);
    }
  }

  lemma OneConnKeepsNames(w: World, v: World, nid: nat, d: Conn, dead: bool)
    requires nid < |w.conns| && v.conns == w.conns[nid := d] && |v.backs| == |w.backs| && v.cap == w.cap
    requires d.session.fd == w.conns[nid].session.fd && d.owner == w.conns[nid].owner
    requires v.pool == Killed(w.pool, d.session.fd, dead)
    ensures SameNames(w, v)
  {
  }

  lemma RecvFrontKeepsNames(w: World, nid: nat, frontOk: bool, backOk: bool)
    requires Inv(w) && Enabled(w, RecvFront(nid, frontOk, backOk))
    ensures SameNames(w, DoRecvFront(w, nid, frontOk, backOk))
  {
    var c := w.conns[nid];
    var o := A.RecvFront(c.session, w.pos, |w.backs|, c.up[0], frontOk, backOk);
    DeliverLength(w.backs, Ups(o.effects));
    FrontKeeps(c, w.pos, |w.backs|, frontOk, backOk, w.cap);
    OneConnKeepsNames(w, DoRecvFront(w, nid, frontOk, backOk), nid, AfterFront(c, o), Kills(o.effects));
  }

  lemma RecvBackKeepsNames(w: World, b: nat, frontOk: bool, backOk: bool)
    requires Inv(w) && Enabled(w, RecvBack(b, frontOk, backOk))
    ensures SameNames(w, DoRecvBack(w, b, frontOk, backOk))
  {
    var m := w.backs[b].fromB[0];
    var v := DoRecvBack(w, b, frontOk, backOk);
    if FrontEndByAsyncIds(w, m.fd, m.nid).Some? {
      var c := w.conns[m.nid];
      var o := A.RecvBack(c.session, w.pos, |w.backs|, m, frontOk, backOk);
      DeliverLength(Popped(w, b).backs, Ups(o.effects));
      A.BackKeepsIds(c.session, w.pos, |w.backs|, m, frontOk, backOk);
      OneConnKeepsNames(w, v, m.nid, AfterBack(c, b, m, Some(o)), Kills(o.effects));
    } else if m.nid < |w.conns| {
      OneConnKeepsNames(w, v, m.nid, AfterBack(w.conns[m.nid], b, m, None), false);
    }
  }

  lemma StepKeepsNames(w: World, a: Action)
    requires Inv(w)
    ensures SameNames(w, Apply(w, a))
  {
    if Enabled(w, a) {
      match a
      case RecvFront(nid, frontOk, backOk) => RecvFrontKeepsNames(w, nid, frontOk, backOk);
      case RecvBack(b, frontOk, backOk) => RecvBackKeepsNames(w, b, frontOk, backOk);
      case Connect(i, fd) => ConnectKeepsNames(w, i, fd);
      case Update(i, told, env, n) => OwnKeepsNames(w, DoUpdate(w, i, told, env, n), w.clients[i].conn.value);
      case Push(i, data, env) => OwnKeepsNames(w, DoPush(w, i, data, env), w.clients[i].conn.value);
      case Pop(i) =>
      case Close(nid) =>
      case Take(b) => TakeKeepsNames(w, b);
      case Ack(b, nid, sid) => OwnKeepsNames(w, DoAck(w, b, nid, sid), nid);
      case Send(b, nid, fin, data) =>
    }
  }

  /** Steps that leave the session alone. */
  lemma OwnKeepsNames(w: World, v: World, nid: nat)
    requires nid < |w.conns| == |v.conns| && v.conns == w.conns[nid := v.conns[nid]] && |v.backs| == |w.backs|
    requires v.pool == w.pool && v.cap == w.cap
    requires v.conns[nid].session == w.conns[nid].session && v.conns[nid].owner == w.conns[nid].owner
    ensures SameNames(w, v)
  {
  }

  lemma TakeKeepsNames(w: World, b: nat)
    requires Enabled(w, Take(b))
    ensures SameNames(w, DoTake(w, b))
  {
    var m := w.backs[b].toB[0];
    if m.id == S.SsSyn && m.nid < |w.conns| {
      OwnKeepsNames(w, DoTake(w, b), m.nid);
    }
  }

  lemma ConnectKeepsNames(w: World, i: nat, fd: nat)
    requires Enabled(w, Connect(i, fd))
    ensures SameNames(w, DoConnect(w, i, fd))
  {
    var v := DoConnect(w, i, fd);
    assert forall x :: 0 <= x < |w.conns| ==> v.conns[x] == w.conns[x];
  }

  lemma {:induction false} RunKeepsNames(w: World, actions: seq<Action>)
    requires Inv(w)
    ensures SameNames(w, Run(w, actions))
    decreases |actions|
  {
    if actions != [] {
      StepKeeps(w, actions[0]);
      StepKeepsNames(w, actions[0]);
      RunKeepsNames(Apply(w, actions[0]), actions[1..]);
    }
  }
}
