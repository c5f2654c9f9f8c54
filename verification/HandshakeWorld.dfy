/** Clients, one connector and its backends over FIFO channels: the state of the whole system
    and its steps.  Each step runs the functions that specify the client and the connector; a
    backend is taken to answer every SYN with one ACK before it sends anything else for that
    session, and to use the tuples it has been given. */
module HandshakeWorld {
  import opened Bytes
  import opened ClientMessages
  import C = ClientProtocol
  import S = ConnectorSession
  import A = ConnectorApp
  import K = SocketBuffer
  import T = Transport

  /** A push the application tried, and whether the send buffer took it. */
  datatype Attempt = Attempt(data: seq<byte>, queued: bool)

  /** How far the handshake with the backend has come: SYN on its way to backend b, taken by it,
      its ACK on the way back with session id s, ACK taken. */
  datatype Phase = NoSyn | SynSent(b: nat) | Asked(b: nat) | AckSent(b: nat, s: nat) | AckDone(b: nat, s: nat)

  /** A connection.  hs, got and k count the handshake messages the client has queued, the
      replies it has taken and the replies it was sent; syn and auth are the two it has to send,
      the first under number base; up is on the wire, unsent still in the client's send buffer, or
      what was there when the client left; forwarded is what the session has tried to hand to a
      backend. */
  datatype Conn = Conn(owner: nat, session: S.Session, hs: int, got: int, k: int, base: int, syn: CsMsg, auth: CsMsg,
                       attempts: seq<Attempt>, up: seq<CsMsg>, unsent: seq<CsMsg>, down: seq<CsMsg>, phase: Phase,
                       forwarded: seq<seq<byte>>)

  datatype Holder = Holder(client: C.Client, conn: Option<nat>, stopped: bool)

  datatype Peer = Peer(fd: nat, sid: nat)

  /** A backend: its two channels, the SYNs it has yet to answer, the sessions it has
      acknowledged, and the sessions whose tuple it knows. */
  datatype Back = Back(toB: seq<S.SsMsg>, fromB: seq<S.SsMsg>, asked: map<nat, nat>, acked: map<nat, nat>,
                       known: map<nat, Peer>)

  /** Connections are numbered by their nid and never forgotten; pool holds the open ones by fd,
      and an fd is free again once its connection is closed.  cap is the size of the connector's
      receive buffer, and picks the backends turned to so far. */
  datatype World = World(clients: seq<Holder>, conns: seq<Conn>, pool: map<nat, nat>, pos: nat, picks: seq<nat>,
                         backs: seq<Back>, cap: nat)

  // ---------- what one step does to one connection ----------

  function Downs(es: seq<S.Effect>): seq<CsMsg> {
    if es == [] then []
    else if es[0].ToFront? && es[0].ok then [es[0].msg] + Downs(es[1..])
    else Downs(es[1..])
  }

  datatype Routed = Routed(b: nat, m: S.SsMsg)

  function Ups(es: seq<S.Effect>): seq<Routed> {
    if es == [] then []
    else if es[0].ToBack? && es[0].ok then [Routed(es[0].backend, es[0].up)] + Ups(es[1..])
    else Ups(es[1..])
  }

  /** What the session tried to forward, whether or not the send worked. */
  function Tries(es: seq<S.Effect>): seq<seq<byte>> {
    if es == [] then []
    else if es[0].ToBack? && es[0].up.id == S.SsData then [es[0].up.data] + Tries(es[1..])
    else Tries(es[1..])
  }

  predicate Kills(es: seq<S.Effect>) {
    S.DestroyFront in es
  }

  function NewPhase(p: Phase, ups: seq<Routed>): Phase {
    if ups != [] && ups[0].m.id == S.SsSyn then SynSent(ups[0].b) else p
  }

  function Replied(k: int, downs: seq<CsMsg>): int {
    if k < 3 then k + |downs| else k
  }

  function AfterFront(c: Conn, o: S.Outcome): Conn
    requires c.up != []
  {
    c.(session := o.session, up := c.up[1..], down := c.down + Downs(o.effects), k := Replied(c.k, Downs(o.effects)),
       phase := NewPhase(c.phase, Ups(o.effects)), forwarded := c.forwarded + Tries(o.effects))
  }

  /** The connection after message m of backend b, where o is Some if the session was found. */
  function AfterBack(c: Conn, b: nat, m: S.SsMsg, o: Option<S.Outcome>): Conn {
    var d := if m.id == S.SsAck then c.(phase := AckDone(b, m.sid)) else c;
    if o.None? then d
    else
      d.(session := o.value.session, down := c.down + Downs(o.value.effects), k := Replied(c.k, Downs(o.value.effects)))
  }

  /** The client's own call, in which the operating system has n more messages for it. */
  function Receiving(c: Conn, env: C.Env, n: nat): C.Env
    requires n <= |c.down|
  {
    if env.recv.Got? then env.(recv := C.Got(c.down[..n])) else env
  }

  function AfterUpdate(c: Conn, before: C.Client, u: C.Updated, arrived: nat): Conn
    requires arrived <= |c.down|
  {
    c.(down := c.down[arrived..], up := c.up + u.wire, unsent := u.client.unsent, hs := c.hs + |u.queued|,
       got := c.got + |before.recvq| + arrived - |u.client.recvq|)
  }

  // ---------- the steps ----------

  datatype Action =
    | Connect(i: nat, fd: nat)
    | Update(i: nat, told: bool, env: C.Env, n: nat)
    | Push(i: nat, data: seq<byte>, env: C.Env)
    | Pop(i: nat)
    | RecvFront(nid: nat, frontOk: bool, backOk: bool)
    | RecvBack(b: nat, frontOk: bool, backOk: bool)
    | Close(nid: nat)
    | Take(b: nat)
    | Ack(b: nat, nid: nat, sid: nat)
    | Send(b: nat, nid: nat, fin: bool, data: seq<byte>)

  predicate Open(w: World, nid: nat)
    requires nid < |w.conns|
  {
    var fd := w.conns[nid].session.fd;
    fd in w.pool && w.pool[fd] == nid
  }

  /** GetFrontEndByAsyncIds. */
  function FrontEndByAsyncIds(w: World, fd: nat, nid: nat): Option<nat> {
    if fd in w.pool && w.pool[fd] == nid && nid < |w.conns| then Some(nid) else None
  }

  predicate Attached(w: World, i: nat) {
    i < |w.clients| && w.clients[i].conn.Some? && !w.clients[i].stopped && w.clients[i].conn.value < |w.conns|
  }

  /** Everything works, and a send takes all there is in the handshake. */
  const PLAIN: C.Env := C.Env(true, C.IsEstablished, C.Got([]), K.NORMAL, C.Moved(2))

  function NewConn(i: nat, fd: nat, nid: nat, c: C.Client): Conn {
    Conn(i, S.Fresh(fd, nid), 0, 0, 0, c.seqno, C.SynMsg(c), C.AuthMsg(c.(seqno := c.seqno + 1)), [], [], [], [], NoSyn, [])
  }

  /** Start or Resume, and the connector's accept: a fresh connection on any free fd.  What was
      under way on an old connection stays there, and what was unsent is lost. */
  function DoConnect(w: World, i: nat, fd: nat): World
    requires i < |w.clients|
  {
    var c := C.Restart(w.clients[i].client, PLAIN).0;
    var nid := |w.conns|;
    w.(clients := w.clients[i := Holder(c, Some(nid), false)], conns := w.conns + [NewConn(i, fd, nid, c)],
       pool := w.pool[fd := nid])
  }

  /** Update; the first that fails is the last, as in MainLoop. */
  function DoUpdate(w: World, i: nat, told: bool, env: C.Env, n: nat): World
    requires Attached(w, i) && n <= |w.conns[w.clients[i].conn.value].down|
  {
    var h := w.clients[i];
    var c := w.conns[h.conn.value];
    var e := Receiving(c, env, n);
    var u := C.Step(h.client, told, e);
    w.(clients := w.clients[i := Holder(u.client, h.conn, u.ret < 0)],
       conns := w.conns[h.conn.value := AfterUpdate(c, h.client, u, Taking(h.client, told, e, c))])
  }

  /** How many of the messages on their way down an Update takes in. */
  function Taking(cl: C.Client, told: bool, e: C.Env, c: Conn): (n: nat)
    ensures n <= |c.down|
  {
    if |C.Arrives(cl, told, e)| <= |c.down| then |C.Arrives(cl, told, e)| else |c.down|
  }

  function AfterPush(c: Conn, data: seq<byte>, p: (C.Client, int, seq<CsMsg>, seq<CsMsg>)): Conn {
    if data == [] then c
    else c.(up := c.up + p.3, unsent := p.0.unsent, attempts := c.attempts + [Attempt(data, p.2 != [])])
  }

  function DoPush(w: World, i: nat, data: seq<byte>, env: C.Env): World
    requires Attached(w, i)
  {
    var h := w.clients[i];
    var p := C.Push(h.client, data, env);
    w.(clients := w.clients[i := h.(client := p.0)],
       conns := w.conns[h.conn.value := AfterPush(w.conns[h.conn.value], data, p)])
  }

  function DoPop(w: World, i: nat): World
    requires Attached(w, i)
  {
    var h := w.clients[i];
    w.(clients := w.clients[i := h.(client := C.Pop(C.Peek(h.client).0).0)])
  }

  function Killed(pool: map<nat, nat>, fd: nat, dead: bool): map<nat, nat> {
    if dead then pool - {fd} else pool
  }

  function Deliver(backs: seq<Back>, ups: seq<Routed>): seq<Back>
    decreases |ups|
  {
    if ups == [] then backs
    else if ups[0].b >= |backs| then Deliver(backs, ups[1..])
    else Deliver(backs[ups[0].b := backs[ups[0].b].(toB := backs[ups[0].b].toB + [ups[0].m])], ups[1..])
  }

  function DoRecvFront(w: World, nid: nat, frontOk: bool, backOk: bool): World
    requires nid < |w.conns| && w.conns[nid].up != []
  {
    var c := w.conns[nid];
    var o := A.RecvFront(c.session, w.pos, |w.backs|, c.up[0], frontOk, backOk);
    w.(conns := w.conns[nid := AfterFront(c, o)], pool := Killed(w.pool, c.session.fd, Kills(o.effects)), pos := o.pos,
       picks := w.picks + S.Picks(o.effects), backs := Deliver(w.backs, Ups(o.effects)))
  }

  function Popped(w: World, b: nat): World
    requires b < |w.backs| && w.backs[b].fromB != []
  {
    w.(backs := w.backs[b := w.backs[b].(fromB := w.backs[b].fromB[1..])])
  }

  function DoRecvBack(w: World, b: nat, frontOk: bool, backOk: bool): World
    requires b < |w.backs| && w.backs[b].fromB != []
  {
    var m := w.backs[b].fromB[0];
    var v := Popped(w, b);
    if FrontEndByAsyncIds(w, m.fd, m.nid).Some? then
      var c := w.conns[m.nid];
      var o := A.RecvBack(c.session, w.pos, |w.backs|, m, frontOk, backOk);
      v.(conns := w.conns[m.nid := AfterBack(c, b, m, Some(o))], pool := Killed(w.pool, c.session.fd, Kills(o.effects)),
         pos := o.pos, picks := w.picks + S.Picks(o.effects), backs := Deliver(v.backs, Ups(o.effects)))
    else if m.nid < |w.conns| then v.(conns := w.conns[m.nid := AfterBack(w.conns[m.nid], b, m, None)])
    else v
  }

  /** The connector closes a connection, for whatever reason of its own. */
  function DoClose(w: World, nid: nat): World
    requires nid < |w.conns|
  {
    w.(pool := Killed(w.pool, w.conns[nid].session.fd, Open(w, nid)))
  }

  function DoTake(w: World, b: nat): World
    requires b < |w.backs| && w.backs[b].toB != []
  {
    var back := w.backs[b];
    var m := back.toB[0];
    if m.id == S.SsSyn && m.nid < |w.conns| then
      w.(conns := w.conns[m.nid := w.conns[m.nid].(phase := Asked(b))],
         backs := w.backs[b := back.(toB := back.toB[1..], asked := back.asked[m.nid := m.fd])])
    else
      w.(backs := w.backs[b := back.(toB := back.toB[1..], known := back.known[m.nid := Peer(m.fd, m.sid)])])
  }

  function DoAck(w: World, b: nat, nid: nat, sid: nat): World
    requires b < |w.backs| && nid in w.backs[b].asked && nid < |w.conns|
  {
    var back := w.backs[b];
    w.(conns := w.conns[nid := w.conns[nid].(phase := AckSent(b, sid))],
       backs := w.backs[b := back.(fromB := back.fromB + [S.SsMsg(S.SsAck, 0, back.asked[nid], nid, sid, [])],
                                   asked := back.asked - {nid}, acked := back.acked[nid := sid],
                                   known := back.known[nid := Peer(back.asked[nid], sid)])])
  }

  function DoSend(w: World, b: nat, nid: nat, fin: bool, data: seq<byte>): World
    requires b < |w.backs| && nid in w.backs[b].known
  {
    var back := w.backs[b];
    var m := S.SsMsg(if fin then S.SsFin else S.SsData, 0, back.known[nid].fd, nid, back.known[nid].sid, data);
    w.(backs := w.backs[b := back.(fromB := back.fromB + [m])])
  }

  /** A client's numbers do not run out, and the connector takes the message at the front of a
      connection only if its frame fits the receive buffer. */
  ghost predicate Enabled(w: World, a: Action) {
    match a
    case Connect(i, fd) => i < |w.clients| && fd !in w.pool
    case Update(i, told, env, n) => Attached(w, i) && n <= |w.conns[w.clients[i].conn.value].down|
    case Push(i, data, env) =>
      Attached(w, i) && w.clients[i].client.state == C.Done && w.clients[i].client.seqno < TWO_63
    case Pop(i) => Attached(w, i) && w.clients[i].client.state == C.Done
    case RecvFront(nid, frontOk, backOk) =>
      nid < |w.conns| && Open(w, nid) && w.conns[nid].up != [] && T.Gets(w.conns[nid].up[0], w.cap)
    case RecvBack(b, frontOk, backOk) => b < |w.backs| && w.backs[b].fromB != []
    case Close(nid) => nid < |w.conns|
    case Take(b) => b < |w.backs| && w.backs[b].toB != []
    case Ack(b, nid, sid) => b < |w.backs| && nid in w.backs[b].asked && nid < |w.conns|
    case Send(b, nid, fin, data) => b < |w.backs| && nid in w.backs[b].known
  }

  /** A step that cannot happen changes nothing. */
  ghost function Apply(w: World, a: Action): World {
    if !Enabled(w, a) then w
    else
      match a
      case Connect(i, fd) => DoConnect(w, i, fd)
      case Update(i, told, env, n) => DoUpdate(w, i, told, env, n)
      case Push(i, data, env) => DoPush(w, i, data, env)
      case Pop(i) => DoPop(w, i)
      case RecvFront(nid, frontOk, backOk) => DoRecvFront(w, nid, frontOk, backOk)
      case RecvBack(b, frontOk, backOk) => DoRecvBack(w, b, frontOk, backOk)
      case Close(nid) => DoClose(w, nid)
      case Take(b) => DoTake(w, b)
      case Ack(b, nid, sid) => DoAck(w, b, nid, sid)
      case Send(b, nid, fin, data) => DoSend(w, b, nid, fin, data)
  }

  ghost function Run(w: World, actions: seq<Action>): World
    decreases |actions|
  {
    if actions == [] then w else Run(Apply(w, actions[0]), actions[1..])
  }

  const IDLE: Back := Back([], [], map[], map[], map[])

  /** A client that has just been made. */
  predicate Newborn(c: C.Client) {
    c.state == C.Inited && c.seqno == 1 && c.recvq == [] && c.unsent == []
  }

  /** Any clients that have not connected yet, and n idle backends. */
  predicate Starting(w: World) {
    && w.conns == [] && w.pool == map[] && w.pos == 0 && w.picks == [] && 1 <= |w.backs| <= S.MAX_BACKENDS
    && (forall b :: 0 <= b < |w.backs| ==> w.backs[b] == IDLE)
    && (forall i :: 0 <= i < |w.clients| ==> w.clients[i].conn.None? && Newborn(w.clients[i].client))
  }
}
