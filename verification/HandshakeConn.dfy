/** What holds of one connection, and that every step of its client and of its session keeps it. */
module HandshakeConn {
  import opened Bytes
  import opened ClientMessages
  import C = ClientProtocol
  import S = ConnectorSession
  import A = ConnectorApp
  import K = SocketBuffer
  import T = Transport
  import opened HandshakeWorld

  // ---------- the pushes that can get through ----------

  /** The payloads pushed before the first the send buffer refused. */
  function BeforeRefusal(attempts: seq<Attempt>): seq<seq<byte>> {
    if attempts == [] || !attempts[0].queued then [] else [attempts[0].data] + BeforeRefusal(attempts[1..])
  }

  lemma {:induction false} BeforeRefusalAppend(attempts: seq<Attempt>, x: Attempt)
    ensures |BeforeRefusal(attempts)| <= |attempts|
    ensures BeforeRefusal(attempts + [x])
         == BeforeRefusal(attempts) + if |BeforeRefusal(attempts)| == |attempts| && x.queued then [x.data] else []
    decreases |attempts|
  {
    if attempts != [] {
      BeforeRefusalAppend(attempts[1..], x);
      assert (attempts + [x])[1..] == attempts[1..] + [x];
    }
  }

  function Datas(ms: seq<CsMsg>): seq<seq<byte>> {
    if ms == [] then [] else [A.DataOf(ms[0])] + Datas(ms[1..])
  }

  lemma {:induction false} DatasAppend(a: seq<CsMsg>, b: seq<CsMsg>)
    ensures Datas(a + b) == Datas(a) + Datas(b) && |Datas(a)| == |a|
    decreases |a|
  {
    if a == [] {
      assert a + b == b;
    } else {
      DatasAppend(a[1..], b);
      assert (a + b)[1..] == a[1..] + b;
    }
  }

  // ---------- the invariant ----------

  function Reply(j: int): CsMsg {
    if j == 0 then S.SynAckMsg() else if j == 1 then S.PassportMsg() else S.StartMsg()
  }

  /** What the client has yet to take: the handshake replies still owed, in order, and data only
      after all three. */
  ghost predicate GoodDown(q: seq<CsMsg>, got: int, k: int) {
    && got <= k && |q| >= k - got && (|q| > k - got ==> k == 3)
    && forall i :: 0 <= i < |q| ==> if i < k - got then q[i] == Reply(got + i) else q[i].bodyid == DATA_TRANSPARENT
  }

  ghost predicate Numbered(m: CsMsg, sequence: int) {
    m.magic == MAGIC_CS_V1 && m.sequence == sequence
  }

  /** All the client has queued and the connector not yet taken, on the wire or not. */
  function Line(c: Conn): seq<CsMsg> {
    c.up + c.unsent
  }

  /** In STATE_OK: what was forwarded, followed by what the filter will let through of what the
      client has queued, is what was pushed before the first refusal. */
  ghost predicate Stream(c: Conn) {
    && c.session.lastSeq == c.base + 1 + |c.forwarded|
    && (forall i :: 0 <= i < |Line(c)| ==> Line(c)[i].bodyid == DATA_TRANSPARENT && 0 < Line(c)[i].sequence < TWO_63)
    && c.forwarded + Datas(S.Accepted(c.session.lastSeq, Line(c))) == BeforeRefusal(c.attempts)
    && |c.forwarded| + |Line(c)| <= |c.attempts|
  }

  ghost predicate OpenOk(c: Conn) {
    c.session.lastSeq < TWO_63 &&
    match c.session.state
    case Init => c.k == 0 && c.session.lastSeq == 0 && c.phase.NoSyn?
                 && |Line(c)| == c.hs && (c.hs == 1 ==> Line(c)[0] == c.syn)
    case Auth => c.k == 1 && c.session.lastSeq == c.base && c.phase.NoSyn? && c.hs >= 1
                 && |Line(c)| == c.hs - 1 && (c.hs == 2 ==> Line(c)[0] == c.auth)
    case Syning => false
    case SynAck => c.k == 2 && c.session.lastSeq == c.base + 1 && c.hs == 2 && Line(c) == []
                   && (c.phase.SynSent? || c.phase.Asked? || c.phase.AckSent?)
    case Ok => c.k == 3 && c.phase.AckDone? && c.session.sid == c.phase.s && Stream(c)
  }

  /** Before its first push the client has queued at most the two handshake messages, each reply
      answers one the connector has taken, and the connector takes only what fits its buffer. */
  ghost predicate HandshakeOk(c: Conn, cap: nat) {
    && 0 <= c.got <= c.k <= 3 && 0 <= c.hs <= 2 && c.hs <= c.got + 1
    && (if c.attempts == [] then |Line(c)| <= c.hs && if c.k < 3 then c.k <= c.hs - |Line(c)| else c.hs == 2 && Line(c) == []
        else c.got == 3 && c.hs == 2)
    && (c.k >= 1 ==> T.Gets(c.syn, cap)) && (c.k >= 2 ==> T.Gets(c.auth, cap))
  }

  ghost predicate ConnOk(c: Conn, open: bool, cap: nat) {
    && HandshakeOk(c, cap)
    && c.base >= 1 && Numbered(c.syn, c.base) && Numbered(c.auth, c.base + 1)
    && c.forwarded <= BeforeRefusal(c.attempts)
    && (c.k == 3 ==> c.phase.AckDone?)
    && (open ==> OpenOk(c))
  }

  /** The client's state says how many handshake messages it sent and how many replies it took. */
  predicate InPhase(state: C.State, hs: int, got: int) {
    match state
    case TcpSyning => hs == 0 && got == 0
    case KeySyning => hs == 1 && got == 0
    case Authing => hs == 2 && got == 1
    case Ready => hs == 2 && got == 2
    case Done => hs == 2 && got == 3
    case Inited => false
    case Fini => false
  }

  /** In the handshake any failure of the socket ends the client. */
  predicate SockOk(state: C.State, sock: K.SocketState) {
    if state == C.TcpSyning then sock == K.NetConnecting
    else if state == C.Done then sock in {K.NetConnected, K.NetSendFailed, K.NetRecvFailed, K.NetPeerClosed}
    else sock == K.NetConnected
  }

  ghost predicate Linked(cl: C.Client, c: Conn) {
    && cl.seqno == c.base + c.hs + |c.attempts|
    && InPhase(cl.state, c.hs, c.got) && SockOk(cl.state, cl.sock)
    && cl.unsent == c.unsent
    && c.syn.body == SynBody(cl.appid, cl.openid) && c.syn.bodyid == SYN
    && c.auth.body == AuthBody(cl.token) && c.auth.bodyid == AUTHENTICATION
    && GoodDown(cl.recvq + c.down, c.got, c.k)
  }

  // ---------- effects ----------

  lemma Single(e: S.Effect)
    ensures Downs([e]) == (if e.ToFront? && e.ok then [e.msg] else [])
    ensures Ups([e]) == (if e.ToBack? && e.ok then [Routed(e.backend, e.up)] else [])
    ensures Tries([e]) == (if e.ToBack? && e.up.id == S.SsData then [e.up.data] else [])
    ensures Kills([e]) <==> e.DestroyFront?
  {
    assert [e][1..] == [];
  }

  lemma Joined<T>(x: seq<T>, y: seq<T>, z: seq<T>)
    ensures (x + y) + z == x + (y + z)
    ensures x != [] ==> (x + y)[0] == x[0] && (x + y)[1..] == x[1..] + y
    ensures [] + y == y
  {
  }

  lemma {:induction false} DownsAdd(a: seq<S.Effect>, b: seq<S.Effect>)
    ensures Downs(a + b) == Downs(a) + Downs(b)
    decreases |a|
  {
    Joined(a, b, []);
    if a != [] {
      DownsAdd(a[1..], b);
      if a[0].ToFront? && a[0].ok {
        Joined([a[0].msg], Downs(a[1..]), Downs(b));
      }
    }
  }

  lemma {:induction false} UpsAdd(a: seq<S.Effect>, b: seq<S.Effect>)
    ensures Ups(a + b) == Ups(a) + Ups(b)
    decreases |a|
  {
    Joined(a, b, []);
    if a != [] {
      UpsAdd(a[1..], b);
      if a[0].ToBack? && a[0].ok {
        Joined([Routed(a[0].backend, a[0].up)], Ups(a[1..]), Ups(b));
      }
    }
  }

  lemma {:induction false} TriesAdd(a: seq<S.Effect>, b: seq<S.Effect>)
    ensures Tries(a + b) == Tries(a) + Tries(b)
    decreases |a|
  {
    Joined(a, b, []);
    if a != [] {
      TriesAdd(a[1..], b);
      if a[0].ToBack? && a[0].up.id == S.SsData {
        Joined([a[0].up.data], Tries(a[1..]), Tries(b));
      }
    }
  }

  lemma Both(a: seq<S.Effect>, b: seq<S.Effect>)
    ensures Downs(a + b) == Downs(a) + Downs(b) && Ups(a + b) == Ups(a) + Ups(b)
    ensures Tries(a + b) == Tries(a) + Tries(b) && (Kills(a + b) <==> Kills(a) || Kills(b))
  {
    DownsAdd(a, b);
    UpsAdd(a, b);
    TriesAdd(a, b);
  }

  /** A failed send to the client: nothing gets out, and the connection is destroyed. */
  lemma Failure(es: seq<S.Effect>, m: CsMsg)
    requires es == [S.ToFront(m, false), S.DestroyFront, S.DestroyFront]
    ensures Downs(es) == [] && Ups(es) == [] && Tries(es) == [] && Kills(es)
  {
    var e, f := S.ToFront(m, false), S.DestroyFront;
    Single(e);
    Single(f);
    Both([e], [f]);
    Both([e] + [f], [f]);
    Split(e, f, f);
  }

  lemma Split<T>(a: T, b: T, c: T)
    ensures [a, b] == [a] + [b] && [a, b, c] == [a, b] + [c]
  {
  }

  /** A reply to the client, then a SYN to a backend. */
  lemma ReplyAndSyn(m: CsMsg, b: nat, syn: S.SsMsg, ok: bool)
    requires syn.id == S.SsSyn
    ensures var es := [S.ToFront(m, true), S.ToBack(b, syn, ok)];
      Downs(es) == [m] && Ups(es) == (if ok then [Routed(b, syn)] else []) && Tries(es) == [] && !Kills(es)
  {
    var e, f := S.ToFront(m, true), S.ToBack(b, syn, ok);
    Single(e);
    Single(f);
    Both([e], [f]);
    Split(e, f, f);
  }

  /** The same with the SYN failing, which destroys the connection. */
  lemma ReplyAndNoSyn(m: CsMsg, b: nat, syn: S.SsMsg)
    requires syn.id == S.SsSyn
    ensures var es := [S.ToFront(m, true), S.ToBack(b, syn, false), S.DestroyFront];
      Downs(es) == [m] && Ups(es) == [] && Tries(es) == [] && Kills(es)
  {
    var es := [S.ToFront(m, true), S.ToBack(b, syn, false)];
    ReplyAndSyn(m, b, syn, false);
    Single(S.DestroyFront);
    Both(es, [S.DestroyFront]);
    Split(S.ToFront(m, true), S.ToBack(b, syn, false), S.DestroyFront);
  }

  /** What a step may send to backends, and what that says of the phase. */
  ghost predicate Sends(c: Conn, d: Conn, ups: seq<Routed>, used: nat) {
    || (ups == [] && d.phase == c.phase)
    || (|ups| == 1 && ups[0].b < used && ups[0].m.fd == c.session.fd && ups[0].m.nid == c.session.nid
        && ((c.phase.NoSyn? && d.phase == SynSent(ups[0].b) && ups[0].m.id == S.SsSyn)
            || (c.phase.AckDone? && d.phase == c.phase && ups[0].m.id == S.SsData && ups[0].m.sid == c.phase.s)))
  }

  /** The replies and data a step sends down follow on from what is there. */
  ghost predicate Follows(c: Conn, d: Conn, downs: seq<CsMsg>) {
    && d.(session := c.session, up := c.up, down := c.down, k := c.k, phase := c.phase, forwarded := c.forwarded) == c
    && d.session.fd == c.session.fd && d.session.nid == c.session.nid && d.down == c.down + downs
    && forall q, got :: GoodDown(q, got, c.k) ==> GoodDown(q + downs, got, d.k)
  }

  lemma NothingFollows(c: Conn, d: Conn)
    requires d.(session := c.session, up := c.up, k := c.k, phase := c.phase, forwarded := c.forwarded) == c && d.k == c.k
    requires d.session.fd == c.session.fd && d.session.nid == c.session.nid
    ensures Follows(c, d, [])
  {
    assert c.down + [] == c.down;
    forall q: seq<CsMsg>, got | GoodDown(q, got, c.k) ensures GoodDown(q + [], got, d.k) {
      assert q + [] == q;
    }
  }

  lemma ReplyFollows(c: Conn, d: Conn)
    requires c.k < 3 && d.k == c.k + 1 && d.down == c.down + [Reply(c.k)]
    requires d.(session := c.session, up := c.up, down := c.down, k := c.k, phase := c.phase, forwarded := c.forwarded) == c
    requires d.session.fd == c.session.fd && d.session.nid == c.session.nid
    ensures Follows(c, d, [Reply(c.k)])
  {
  }

  lemma DataFollows(c: Conn, d: Conn, m: CsMsg)
    requires c.k == d.k == 3 && d.down == c.down + [m] && m.bodyid == DATA_TRANSPARENT
    requires d.(session := c.session, up := c.up, down := c.down, k := c.k, phase := c.phase, forwarded := c.forwarded) == c
    requires d.session.fd == c.session.fd && d.session.nid == c.session.nid
    ensures Follows(c, d, [m])
  {
  }

  // ---------- the connector takes a message of the client ----------

  ghost predicate StepOk(c: Conn, d: Conn, o: S.Outcome, used: nat, cap: nat) {
    ConnOk(d, !Kills(o.effects), cap) && Sends(c, d, Ups(o.effects), used) && Follows(c, d, Downs(o.effects))
  }

  lemma LineHead(c: Conn)
    requires c.up != []
    ensures Line(c) != [] && Line(c)[0] == c.up[0] && c.up[1..] + c.unsent == Line(c)[1..]
  {
  }

  lemma FrontInInit(c: Conn, pos: nat, used: nat, frontOk: bool, backOk: bool, cap: nat)
    requires ConnOk(c, true, cap) && c.up != [] && c.session.state == S.Init && T.Gets(c.up[0], cap)
    ensures var o := A.RecvFront(c.session, pos, used, c.up[0], frontOk, backOk);
      StepOk(c, AfterFront(c, o), o, used, cap)
  {
    var o := A.RecvFront(c.session, pos, used, c.up[0], frontOk, backOk);
    var e := S.ToFront(S.SynAckMsg(), frontOk);
    LineHead(c);
    assert c.attempts == [] && BeforeRefusal(c.attempts) == [] && c.forwarded == [];
    if frontOk {
      assert o.effects == [e];
      Single(e);
      ReplyFollows(c, AfterFront(c, o));
    } else {
      Failure(o.effects, S.SynAckMsg());
      NothingFollows(c, AfterFront(c, o));
    }
  }

  lemma FrontInAuth(c: Conn, pos: nat, used: nat, frontOk: bool, backOk: bool, cap: nat)
    requires ConnOk(c, true, cap) && c.up != [] && c.session.state == S.Auth && used > 0 && T.Gets(c.up[0], cap)
    ensures var o := A.RecvFront(c.session, pos, used, c.up[0], frontOk, backOk);
      StepOk(c, AfterFront(c, o), o, used, cap)
  {
    var o := A.RecvFront(c.session, pos, used, c.up[0], frontOk, backOk);
    LineHead(c);
    if frontOk {
      AuthOutcome(c.session, c.up[0], pos, used, backOk);
      AuthKept(c, o, S.Choose(pos, used), backOk, used, cap);
    } else {
      Failure(o.effects, S.PassportMsg());
      AuthFailedKept(c, o, used, cap);
    }
  }

  lemma AuthKept(c: Conn, o: S.Outcome, b: nat, backOk: bool, used: nat, cap: nat)
    requires ConnOk(c, true, cap) && c.up != [] && c.session.state == S.Auth && b < used && T.Gets(c.up[0], cap)
    requires o.session == c.session.(lastSeq := S.U64(c.up[0].sequence), state := if backOk then S.SynAck else S.Syning)
    requires var e, f := S.ToFront(S.PassportMsg(), true),
                         S.ToBack(b, S.SsMsg(S.SsSyn, 1, c.session.fd, c.session.nid, c.session.sid, []), backOk);
      o.effects == if backOk then [e, f] else [e, f, S.DestroyFront]
    ensures StepOk(c, AfterFront(c, o), o, used, cap)
  {
    LineHead(c);
    assert c.attempts == [] && BeforeRefusal(c.attempts) == [] && c.forwarded == [];
    var syn := S.SsMsg(S.SsSyn, 1, c.session.fd, c.session.nid, c.session.sid, []);
    if backOk {
      ReplyAndSyn(S.PassportMsg(), b, syn, true);
    } else {
      ReplyAndNoSyn(S.PassportMsg(), b, syn);
    }
    ReplyFollows(c, AfterFront(c, o));
  }

  lemma AuthFailedKept(c: Conn, o: S.Outcome, used: nat, cap: nat)
    requires ConnOk(c, true, cap) && c.up != [] && c.session.state == S.Auth
    requires o.session == c.session.(lastSeq := o.session.lastSeq)
    requires Downs(o.effects) == [] && Ups(o.effects) == [] && Tries(o.effects) == [] && Kills(o.effects)
    ensures StepOk(c, AfterFront(c, o), o, used, cap)
  {
    LineHead(c);
    assert c.attempts == [] && c.forwarded == [];
    NothingFollows(c, AfterFront(c, o));
  }

  lemma AuthOutcome(s: S.Session, m: CsMsg, pos: nat, used: nat, backOk: bool)
    requires s.state == S.Auth && S.CheckUp(s, m).1 == 0 && used > 0
    ensures var o := A.RecvFront(s, pos, used, m, true, backOk);
      && o.session == s.(lastSeq := S.U64(m.sequence), state := if backOk then S.SynAck else S.Syning)
      && var e, f := S.ToFront(S.PassportMsg(), true),
                     S.ToBack(S.Choose(pos, used), S.SsMsg(S.SsSyn, 1, s.fd, s.nid, s.sid, []), backOk);
         o.effects == if backOk then [e, f] else [e, f, S.DestroyFront]
  {
  }

  lemma OkOutcome(s: S.Session, m: CsMsg, pos: nat, used: nat, frontOk: bool, backOk: bool)
    requires s.state == S.Ok && used > 0 && m.bodyid == DATA_TRANSPARENT
    ensures var o := A.RecvFront(s, pos, used, m, frontOk, backOk);
      && (S.CheckUp(s, m).1 != 0 ==> o.session == s && o.effects == [])
      && (S.CheckUp(s, m).1 == 0 ==> o.session == s.(lastSeq := S.U64(m.sequence)))
      && (S.CheckUp(s, m).1 == 0 ==>
            o.effects == [S.ToBack(S.Choose(pos, used), S.SsMsg(S.SsData, m.sequence, s.fd, s.nid, s.sid, A.DataOf(m)), backOk)])
  {
  }

  /** The head of the stream is either the next payload or will never count. */
  lemma FrontInOk(c: Conn, pos: nat, used: nat, frontOk: bool, backOk: bool, cap: nat)
    requires ConnOk(c, true, cap) && c.up != [] && c.session.state == S.Ok && used > 0
    ensures var o := A.RecvFront(c.session, pos, used, c.up[0], frontOk, backOk);
      StepOk(c, AfterFront(c, o), o, used, cap)
  {
    var m := c.up[0];
    var o := A.RecvFront(c.session, pos, used, m, frontOk, backOk);
    LineHead(c);
    OkOutcome(c.session, m, pos, used, frontOk, backOk);
    if S.CheckUp(c.session, m).1 != 0 {
      RejectedKept(c, o, used, cap);
    } else {
      ForwardedKept(c, o, S.Choose(pos, used), backOk, used, cap);
    }
  }

  lemma RejectedKept(c: Conn, o: S.Outcome, used: nat, cap: nat)
    requires ConnOk(c, true, cap) && c.up != [] && c.session.state == S.Ok && S.CheckUp(c.session, c.up[0]).1 != 0
    requires o.session == c.session && o.effects == []
    ensures StepOk(c, AfterFront(c, o), o, used, cap)
  {
    var d, l := AfterFront(c, o), Line(c);
    LineHead(c);
    assert c.forwarded + [] == c.forwarded;
    NothingFollows(c, d);
    assert Line(d) == l[1..];
    assert S.Accepted(c.session.lastSeq, l) == S.Accepted(c.session.lastSeq, l[1..]);
  }

  lemma ForwardedKept(c: Conn, o: S.Outcome, b: nat, backOk: bool, used: nat, cap: nat)
    requires ConnOk(c, true, cap) && c.up != [] && c.session.state == S.Ok && S.CheckUp(c.session, c.up[0]).1 == 0
    requires o.session == c.session.(lastSeq := S.U64(c.up[0].sequence)) && b < used
    requires var s, m := c.session, c.up[0];
      o.effects == [S.ToBack(b, S.SsMsg(S.SsData, m.sequence, s.fd, s.nid, s.sid, A.DataOf(m)), backOk)]
    ensures StepOk(c, AfterFront(c, o), o, used, cap)
  {
    var d := AfterFront(c, o);
    LineHead(c);
    Single(o.effects[0]);
    NothingFollows(c, d);
    StreamForwards(c, d);
  }

  /** The front of the line is forwarded and the filter moves on. */
  lemma StreamForwards(c: Conn, d: Conn)
    requires Stream(c) && c.base >= 1 && Line(c) != [] && S.CheckUp(c.session, Line(c)[0]).1 == 0 && c.session.lastSeq < TWO_63
    requires Line(d) == Line(c)[1..] && d.attempts == c.attempts && d.base == c.base
    requires d.session == c.session.(lastSeq := S.U64(Line(c)[0].sequence)) && d.forwarded == c.forwarded + [A.DataOf(Line(c)[0])]
    ensures Stream(d) && d.session.lastSeq < TWO_63 && d.forwarded <= BeforeRefusal(d.attempts)
  {
    var l, m := Line(c), Line(c)[0];
    var rest := S.Accepted(d.session.lastSeq, l[1..]);
    assert S.Accepted(c.session.lastSeq, l) == [m] + rest;
    ForwardsNext(c, A.DataOf(m), m, rest);
  }

  lemma ForwardsNext(c: Conn, data: seq<byte>, m: CsMsg, rest: seq<CsMsg>)
    requires A.DataOf(m) == data
    ensures c.forwarded + Datas([m] + rest) == (c.forwarded + [data]) + Datas(rest)
    ensures c.forwarded + [data] <= c.forwarded + Datas([m] + rest)
  {
    assert ([m] + rest)[1..] == rest;
    Joined(c.forwarded, [data], Datas(rest));
  }

  lemma FrontKeeps(c: Conn, pos: nat, used: nat, frontOk: bool, backOk: bool, cap: nat)
    requires ConnOk(c, true, cap) && c.up != [] && used > 0 && T.Gets(c.up[0], cap)
    ensures var o := A.RecvFront(c.session, pos, used, c.up[0], frontOk, backOk);
      StepOk(c, AfterFront(c, o), o, used, cap)
  {
    match c.session.state
    case Init => FrontInInit(c, pos, used, frontOk, backOk, cap);
    case Auth => FrontInAuth(c, pos, used, frontOk, backOk, cap);
    case SynAck =>
    case Ok => FrontInOk(c, pos, used, frontOk, backOk, cap);
  }

  // ---------- the connector takes a message of a backend ----------

  lemma AckOutcome(s: S.Session, pos: nat, used: nat, m: S.SsMsg, frontOk: bool, backOk: bool)
    requires s.state == S.SynAck && m.id == S.SsAck
    ensures var o := A.RecvBack(s, pos, used, m, frontOk, backOk);
      && o.session == (if frontOk then s.(sid := m.sid, state := S.Ok) else s)
      && o.effects == if frontOk then [S.ToFront(S.StartMsg(), true)]
                      else [S.ToFront(S.StartMsg(), false), S.DestroyFront, S.DestroyFront]
  {
  }

  lemma AckKept(c: Conn, b: nat, m: S.SsMsg, o: S.Outcome, frontOk: bool, cap: nat)
    requires ConnOk(c, true, cap) && c.phase == AckSent(b, m.sid) && m.id == S.SsAck
    requires o.session == if frontOk then c.session.(sid := m.sid, state := S.Ok) else c.session
    requires o.effects == if frontOk then [S.ToFront(S.StartMsg(), true)]
                          else [S.ToFront(S.StartMsg(), false), S.DestroyFront, S.DestroyFront]
    ensures var d := AfterBack(c, b, m, Some(o));
      && ConnOk(d, !Kills(o.effects), cap) && Ups(o.effects) == [] && d.phase == AckDone(b, m.sid)
      && Follows(c, d, Downs(o.effects))
  {
    var d := AfterBack(c, b, m, Some(o));
    assert c.attempts == [] && BeforeRefusal(c.attempts) == [] && c.forwarded == [];
    if frontOk {
      Single(S.ToFront(S.StartMsg(), true));
      ReplyFollows(c, d);
    } else {
      Failure(o.effects, S.StartMsg());
      NothingFollows(c, d);
    }
  }

  /** The ACK opens the session and sends the last reply. */
  lemma AckKeeps(c: Conn, b: nat, m: S.SsMsg, pos: nat, used: nat, frontOk: bool, backOk: bool, cap: nat)
    requires ConnOk(c, true, cap) && c.phase == AckSent(b, m.sid) && m.id == S.SsAck
    ensures var o := A.RecvBack(c.session, pos, used, m, frontOk, backOk);
      var d := AfterBack(c, b, m, Some(o));
      && ConnOk(d, !Kills(o.effects), cap) && Ups(o.effects) == [] && d.phase == AckDone(b, m.sid)
      && Follows(c, d, Downs(o.effects))
  {
    var o := A.RecvBack(c.session, pos, used, m, frontOk, backOk);
    AckOutcome(c.session, pos, used, m, frontOk, backOk);
    AckKept(c, b, m, o, frontOk, cap);
  }

  lemma FinOutcome(s: S.Session, pos: nat, used: nat, m: S.SsMsg, frontOk: bool, backOk: bool)
    requires s.state == S.Ok && m.id == S.SsFin
    ensures var o := A.RecvBack(s, pos, used, m, frontOk, backOk);
      o.session == s.(sid := m.sid) && o.effects == [S.DestroyFront]
  {
  }

  lemma DataOutcome(s: S.Session, pos: nat, used: nat, m: S.SsMsg, frontOk: bool, backOk: bool)
    requires s.state == S.Ok && s.sid == m.sid && m.id == S.SsData
    ensures var o := A.RecvBack(s, pos, used, m, frontOk, backOk);
      o.session == s && o.effects == if m.data == [] then [] else [S.ToFront(S.DownMsg(m.sequence, m.data), frontOk)]
  {
  }

  lemma FinKept(c: Conn, b: nat, m: S.SsMsg, o: S.Outcome, cap: nat)
    requires ConnOk(c, true, cap) && m.id == S.SsFin
    requires o.session == c.session.(sid := m.sid) && o.effects == [S.DestroyFront]
    ensures var d := AfterBack(c, b, m, Some(o));
      && ConnOk(d, false, cap) && Ups(o.effects) == [] && d.phase == c.phase && Follows(c, d, [])
      && Downs(o.effects) == [] && Kills(o.effects)
  {
    var d := AfterBack(c, b, m, Some(o));
    Single(S.DestroyFront);
    NothingFollows(c, d);
    assert Line(d) == Line(c);
  }

  lemma DataKept(c: Conn, b: nat, m: S.SsMsg, o: S.Outcome, frontOk: bool, cap: nat)
    requires ConnOk(c, true, cap) && c.k == 3 && m.id == S.SsData && o.session == c.session
    requires o.effects == if m.data == [] then [] else [S.ToFront(S.DownMsg(m.sequence, m.data), frontOk)]
    ensures var d := AfterBack(c, b, m, Some(o));
      && ConnOk(d, true, cap) && Ups(o.effects) == [] && d.phase == c.phase && Follows(c, d, Downs(o.effects))
      && !Kills(o.effects) && Downs(o.effects) == if m.data != [] && frontOk then [S.DownMsg(m.sequence, m.data)] else []
  {
    var d := AfterBack(c, b, m, Some(o));
    if m.data != [] {
      Single(S.ToFront(S.DownMsg(m.sequence, m.data), frontOk));
    }
    assert d == c.(down := d.down);
    WaitedKept(c, d, true, cap);
    if m.data != [] && frontOk {
      DataFollows(c, d, S.DownMsg(m.sequence, m.data));
    } else {
      assert Downs(o.effects) == [] && c.down + [] == c.down;
      NothingFollows(c, d);
    }
  }

  /** Once open, data goes down as it is, and a FIN, and only a FIN, closes the connection. */
  lemma OpenedKeeps(c: Conn, b: nat, m: S.SsMsg, pos: nat, used: nat, frontOk: bool, backOk: bool, cap: nat)
    requires ConnOk(c, true, cap) && c.phase.AckDone? && m.sid == c.phase.s && (m.id == S.SsFin || m.id == S.SsData)
    ensures var o := A.RecvBack(c.session, pos, used, m, frontOk, backOk);
      var d := AfterBack(c, b, m, Some(o));
      && ConnOk(d, !Kills(o.effects), cap) && Ups(o.effects) == [] && d.phase == c.phase
      && Follows(c, d, Downs(o.effects))
      && (Kills(o.effects) <==> m.id == S.SsFin)
      && Downs(o.effects) == if m.id == S.SsData && m.data != [] && frontOk then [S.DownMsg(m.sequence, m.data)] else []
  {
    var o := A.RecvBack(c.session, pos, used, m, frontOk, backOk);
    if m.id == S.SsFin {
      FinOutcome(c.session, pos, used, m, frontOk, backOk);
      FinKept(c, b, m, o, cap);
    } else {
      DataOutcome(c.session, pos, used, m, frontOk, backOk);
      DataKept(c, b, m, o, frontOk, cap);
    }
  }

  // ---------- the client acts ----------

  /** What a Recv brings is a first part of what is on its way. */
  lemma Reassociate(cl: C.Client, c: Conn, env: C.Env, n: nat)
    requires n <= |c.down|
    ensures var ms := C.Receive(cl, Receiving(c, env, n).recv).ms;
      && |ms| <= n && ms == c.down[..|ms|]
      && C.Received(cl, Receiving(c, env, n)) + c.down[|ms|..] == cl.recvq + c.down
  {
    var ms := C.Receive(cl, Receiving(c, env, n).recv).ms;
    assert ms == c.down[..|ms|];
    assert c.down[..|ms|] + c.down[|ms|..] == c.down;
  }

  /** What is waiting for the client is what is expected of the connector at that point: never a
      wrong body, never data before START_APP. */
  lemma NextIsExpected(cl: C.Client, c: Conn, env: C.Env, n: nat, cap: nat)
    requires ConnOk(c, false, cap) && Linked(cl, c) && n <= |c.down|
    ensures var q := C.Received(cl, Receiving(c, env, n));
      && (q != [] && cl.state == C.KeySyning ==> q[0].bodyid == SYNACK)
      && (q != [] && cl.state == C.Authing ==> q[0].bodyid == PASSPORT)
      && (q != [] && cl.state == C.Ready ==> q[0].bodyid == START_APP)
      && (cl.state == C.Done ==> forall i :: 0 <= i < |q| ==> q[i].bodyid == DATA_TRANSPARENT)
  {
    var e := Receiving(c, env, n);
    Reassociate(cl, c, env, n);
    FrontIsExpected(C.Received(cl, e), c.down[|C.Receive(cl, e.recv).ms|..], c.got, c.k);
  }

  lemma FrontIsExpected(q: seq<CsMsg>, rest: seq<CsMsg>, got: int, k: int)
    requires GoodDown(q + rest, got, k) && k <= 3
    ensures q != [] && got < 3 ==> q[0] == Reply(got)
    ensures got == 3 ==> forall i :: 0 <= i < |q| ==> q[i].bodyid == DATA_TRANSPARENT
  {
    forall i | 0 <= i < |q| ensures q[i] == (q + rest)[i] {
    }
  }

  lemma TakeOne(q: seq<CsMsg>, rest: seq<CsMsg>, got: int, k: int)
    requires q != [] && got < 3 && GoodDown(q + rest, got, k)
    ensures q[0] == Reply(got) && got < k && GoodDown(q[1..] + rest, got + 1, k)
  {
    assert q[0] == (q + rest)[0];
    assert q[1..] + rest == (q + rest)[1..];
  }

  /** The client's line grows at its end and moves onto the wire at its front. */
  lemma LineGrows(c: Conn, d: Conn, queued: seq<CsMsg>, wire: seq<CsMsg>)
    requires c.unsent + queued == wire + d.unsent && d.up == c.up + wire
    ensures Line(d) == Line(c) + queued
  {
    Joined(c.up, wire, d.unsent);
    Joined(c.up, c.unsent, queued);
  }

  /** One more handshake message queued. */
  lemma QueueKeeps(c: Conn, d: Conn, open: bool, m: CsMsg, cap: nat)
    requires ConnOk(c, open, cap) && c.hs < 2 && c.hs <= d.got <= c.k && m == (if c.hs == 0 then c.syn else c.auth)
    requires c.got <= d.got && d == c.(up := d.up, unsent := d.unsent, hs := c.hs + 1, got := d.got, down := d.down)
    requires Line(d) == Line(c) + [m]
    ensures ConnOk(d, open, cap)
  {
  }

  /** What one Update does to the connection it works on. */
  ghost predicate UpdateOk(cl: C.Client, c: Conn, open: bool, u: C.Updated, d: Conn, cap: nat) {
    && ConnOk(d, open, cap) && (u.ret >= 0 ==> Linked(u.client, d)) && u.client.seqno >= cl.seqno
    && d.(down := c.down, up := c.up, unsent := c.unsent, hs := c.hs, got := c.got) == c
    && c.hs <= d.hs && c.got <= d.got
  }

  /** The connection after an Update. */
  function Updated(cl: C.Client, c: Conn, told: bool, e: C.Env): Conn {
    AfterUpdate(c, cl, C.Step(cl, told, e), Taking(cl, told, e, c))
  }

  /** A step that hands m to the send buffer: the buffer stays a queue, and if all went well the
      client is in its next state. */
  ghost predicate Queues(t: C.Client, m: CsMsg, next: C.State, u: C.Updated) {
    && (u.queued == [] || u.queued == [m]) && t.unsent + u.queued == u.wire + u.client.unsent
    && u.client.seqno == t.seqno + 1 && u.client.recvq == t.recvq
    && u.client.appid == t.appid && u.client.openid == t.openid && u.client.token == t.token
    && (u.ret >= 0 ==> u.queued == [m] && u.client.state == next && u.client.sock == K.NetConnected)
  }

  lemma SynStep(cl: C.Client, told: bool, e: C.Env)
    requires cl.state == C.TcpSyning && cl.sock == K.NetConnecting && cl.unsent == [] && cl.recvq == []
    ensures var u := C.Step(cl, told, e); Waits(cl, [], u) || Queues(cl, C.SynMsg(cl), C.KeySyning, u)
  {
    if e.check == C.IsEstablished {
      var t := cl.(sock := K.NetConnected);
      C.SendStepQueues(t, e, C.SynMsg(t), C.KeySyning);
      var r := C.SendStep(t, e, C.SynMsg(t), C.KeySyning);
      var d := C.Drive(cl, told, e);
      assert d.client == r.client && d.ret == r.code && d.queued == C.Queued(e, C.SynMsg(t)) && d.wire == r.wire;
    }
  }

  lemma KeyStep(cl: C.Client, told: bool, e: C.Env)
    requires cl.state == C.KeySyning && cl.sock == K.NetConnected
    requires C.Received(cl, e) != [] ==> C.Received(cl, e)[0] == Reply(0)
    ensures var q, u := C.Received(cl, e), C.Step(cl, told, e);
      Waits(cl, q, u) || (q != [] && Queues(cl.(recvq := q[1..]), C.AuthMsg(cl), C.Authing, u))
  {
    var (t, ret) := C.TryAck(cl, e);
    if ret == 0 {
      C.SendStepQueues(t, e, C.AuthMsg(t), C.Authing);
      var r := C.SendStep(t, e, C.AuthMsg(t), C.Authing);
      var d := C.Drive(cl, told, e);
      assert d.client == r.client && d.ret == r.code && d.queued == C.Queued(e, C.AuthMsg(t)) && d.wire == r.wire;
    }
  }

  lemma QueuedKept(cl: C.Client, c: Conn, open: bool, j: nat, t: C.Client, next: C.State, u: C.Updated, cap: nat)
    requires ConnOk(c, open, cap) && Linked(cl, c) && j <= |c.down| && c.attempts == []
    requires t == cl.(recvq := t.recvq)
    requires var got := c.got + |cl.recvq| + j - |t.recvq|;
      && c.got <= got <= c.k && c.hs <= got && GoodDown(t.recvq + c.down[j..], got, c.k)
      && InPhase(next, c.hs + 1, got) && next != C.Done
    requires c.hs < 2 && Queues(t, if c.hs == 0 then c.syn else c.auth, next, u)
    ensures UpdateOk(cl, c, open, u, AfterUpdate(c, cl, u, j), cap)
  {
    var d := AfterUpdate(c, cl, u, j);
    LineGrows(c, d, u.queued, u.wire);
    if u.queued == [] {
      assert Line(d) == Line(c);
      GotMore(c, d, open, cap);
    } else {
      QueueKeeps(c, d, open, u.queued[0], cap);
    }
  }

  /** Nothing changes but what was received and sent. */
  lemma GotMore(c: Conn, d: Conn, open: bool, cap: nat)
    requires ConnOk(c, open, cap) && c.got <= d.got <= c.k && c.attempts == []
    requires d == c.(down := d.down, got := d.got, up := d.up, unsent := d.unsent) && Line(d) == Line(c)
    ensures ConnOk(d, open, cap)
  {
  }

  lemma TcpSyningKeeps(cl: C.Client, c: Conn, open: bool, told: bool, env: C.Env, n: nat, cap: nat)
    requires ConnOk(c, open, cap) && Linked(cl, c) && n <= |c.down| && cl.state == C.TcpSyning && cl.seqno >= 1
    ensures var e := Receiving(c, env, n); UpdateOk(cl, c, open, C.Step(cl, told, e), Updated(cl, c, told, e), cap)
  {
    var e := Receiving(c, env, n);
    assert c.attempts == [] && cl.unsent == [] && |cl.recvq + c.down| == 0;
    SynStep(cl, told, e);
    SynKept(cl, c, open, C.Step(cl, told, e), cap);
  }

  lemma SynKept(cl: C.Client, c: Conn, open: bool, u: C.Updated, cap: nat)
    requires ConnOk(c, open, cap) && Linked(cl, c) && cl.state == C.TcpSyning && cl.recvq == []
    requires Waits(cl, [], u) || Queues(cl, C.SynMsg(cl), C.KeySyning, u)
    ensures UpdateOk(cl, c, open, u, AfterUpdate(c, cl, u, 0), cap)
  {
    var d := AfterUpdate(c, cl, u, 0);
    assert c.attempts == [] && c.down[0..] == c.down;
    if Waits(cl, [], u) {
      assert d.up == c.up;
      WaitedKept(c, d, open, cap);
    } else {
      QueuedKept(cl, c, open, 0, cl, C.KeySyning, u, cap);
    }
  }

  lemma KeySyningKeeps(cl: C.Client, c: Conn, open: bool, told: bool, env: C.Env, n: nat, cap: nat)
    requires ConnOk(c, open, cap) && Linked(cl, c) && n <= |c.down| && cl.state == C.KeySyning && cl.seqno >= 1
    ensures var e := Receiving(c, env, n); UpdateOk(cl, c, open, C.Step(cl, told, e), Updated(cl, c, told, e), cap)
  {
    var e := Receiving(c, env, n);
    var q, ms := C.Received(cl, e), C.Receive(cl, e.recv).ms;
    Reassociate(cl, c, env, n);
    if q != [] {
      TakeOne(q, c.down[|ms|..], c.got, c.k);
    }
    KeyStep(cl, told, e);
    KeyKept(cl, c, open, |ms|, q, C.Step(cl, told, e), cap);
  }

  lemma KeyKept(cl: C.Client, c: Conn, open: bool, j: nat, q: seq<CsMsg>, u: C.Updated, cap: nat)
    requires ConnOk(c, open, cap) && Linked(cl, c) && j <= |c.down| && cl.state == C.KeySyning
    requires |q| == |cl.recvq| + j && GoodDown(q + c.down[j..], c.got, c.k)
    requires q != [] ==> c.got < c.k && GoodDown(q[1..] + c.down[j..], c.got + 1, c.k)
    requires Waits(cl, q, u) || (q != [] && Queues(cl.(recvq := q[1..]), C.AuthMsg(cl), C.Authing, u))
    ensures UpdateOk(cl, c, open, u, AfterUpdate(c, cl, u, j), cap)
  {
    var d := AfterUpdate(c, cl, u, j);
    assert c.attempts == [];
    if Waits(cl, q, u) {
      assert d.up == c.up;
      WaitedKept(c, d, open, cap);
    } else {
      QueuedKept(cl, c, open, j, cl.(recvq := q[1..]), C.Authing, u, cap);
    }
  }

  lemma ReplyKeeps(cl: C.Client, c: Conn, open: bool, told: bool, env: C.Env, n: nat, cap: nat)
    requires ConnOk(c, open, cap) && Linked(cl, c) && n <= |c.down| && cl.state in {C.Authing, C.Ready}
    ensures var e := Receiving(c, env, n); UpdateOk(cl, c, open, C.Step(cl, told, e), Updated(cl, c, told, e), cap)
  {
    var e := Receiving(c, env, n);
    var q, ms := C.Received(cl, e), C.Receive(cl, e.recv).ms;
    Reassociate(cl, c, env, n);
    if q != [] {
      TakeOne(q, c.down[|ms|..], c.got, c.k);
    }
    ReplyTaken(cl, told, e);
    ReplyKept(cl, c, open, |ms|, q, C.Step(cl, told, e), cap);
  }

  /** In AUTHING or READY an Update with an expected reply at hand takes it, unless the socket
      has failed. */
  lemma ReplyTaken(cl: C.Client, told: bool, e: C.Env)
    requires cl.state in {C.Authing, C.Ready} && cl.sock == K.NetConnected
    requires C.Received(cl, e) != [] ==> C.Received(cl, e)[0] == Reply(if cl.state == C.Authing then 1 else 2)
    ensures var q, u := C.Received(cl, e), C.Step(cl, told, e); Waits(cl, q, u) || Takes(cl, q, u)
  {
  }

  /** The client is as it was but for its state, its passport and what it received. */
  ghost predicate Keeps(cl: C.Client, u: C.Updated) {
    && u.queued == [] && u.wire == [] && u.client.seqno == cl.seqno && u.client.unsent == cl.unsent
    && u.client.appid == cl.appid && u.client.openid == cl.openid && u.client.token == cl.token
    && (u.ret >= 0 ==> u.client.sock == cl.sock)
  }

  ghost predicate Waits(cl: C.Client, q: seq<CsMsg>, u: C.Updated) {
    Keeps(cl, u) && u.client.recvq == q && u.client.state == cl.state
  }

  ghost predicate Takes(cl: C.Client, q: seq<CsMsg>, u: C.Updated) {
    && Keeps(cl, u) && q != [] && u.client.recvq == q[1..]
    && u.client.state == if cl.state == C.Authing then C.Ready else C.Done
  }

  lemma ReplyKept(cl: C.Client, c: Conn, open: bool, j: nat, q: seq<CsMsg>, u: C.Updated, cap: nat)
    requires ConnOk(c, open, cap) && Linked(cl, c) && j <= |c.down| && cl.state in {C.Authing, C.Ready}
    requires |q| == |cl.recvq| + j && (Waits(cl, q, u) || Takes(cl, q, u))
    requires GoodDown(q + c.down[j..], c.got, c.k)
    requires q != [] ==> c.got < c.k && GoodDown(q[1..] + c.down[j..], c.got + 1, c.k)
    ensures UpdateOk(cl, c, open, u, AfterUpdate(c, cl, u, j), cap)
  {
    var d := AfterUpdate(c, cl, u, j);
    assert d.up == c.up && d.unsent == c.unsent;
    if Waits(cl, q, u) {
      WaitedKept(c, d, open, cap);
    } else {
      TakenKept(c, d, open, cap);
    }
  }

  lemma WaitedKept(c: Conn, d: Conn, open: bool, cap: nat)
    requires ConnOk(c, open, cap) && d == c.(down := d.down)
    ensures ConnOk(d, open, cap)
  {
    assert Line(d) == Line(c);
  }

  lemma TakenKept(c: Conn, d: Conn, open: bool, cap: nat)
    requires ConnOk(c, open, cap) && c.got < c.k && d == c.(down := d.down, got := c.got + 1)
    ensures ConnOk(d, open, cap)
  {
    assert Line(d) == Line(c);
  }

  lemma DoneKeeps(cl: C.Client, c: Conn, open: bool, told: bool, env: C.Env, n: nat, cap: nat)
    requires ConnOk(c, open, cap) && Linked(cl, c) && n <= |c.down| && cl.state == C.Done
    ensures var e := Receiving(c, env, n); UpdateOk(cl, c, open, C.Step(cl, told, e), Updated(cl, c, told, e), cap)
  {
    var e := Receiving(c, env, n);
    var u := C.Step(cl, told, e);
    var j := |C.Arrives(cl, told, e)|;
    Reassociate(cl, c, env, n);
    assert c.down[0..] == c.down;
    DoneStep(cl, told, e);
    DoneKept(cl, c, open, j, u, cap);
  }

  lemma DoneStep(cl: C.Client, told: bool, e: C.Env)
    requires cl.state == C.Done && SockOk(C.Done, cl.sock)
    ensures var u := C.Step(cl, told, e);
      && u.queued == [] && u.wire == [] && u.client.recvq == cl.recvq + C.Arrives(cl, told, e)
      && u.client == cl.(sock := u.client.sock, recvq := u.client.recvq) && SockOk(C.Done, u.client.sock)
  {
    assert cl.recvq + [] == cl.recvq;
  }

  lemma DoneKept(cl: C.Client, c: Conn, open: bool, j: nat, u: C.Updated, cap: nat)
    requires ConnOk(c, open, cap) && Linked(cl, c) && j <= |c.down| && cl.state == C.Done
    requires u.queued == [] && u.wire == [] && |u.client.recvq| == |cl.recvq| + j
    requires u.client.recvq + c.down[j..] == cl.recvq + c.down
    requires u.client == cl.(sock := u.client.sock, recvq := u.client.recvq) && SockOk(C.Done, u.client.sock)
    ensures UpdateOk(cl, c, open, u, AfterUpdate(c, cl, u, j), cap)
  {
    assert c.up + [] == c.up;
    WaitedKept(c, AfterUpdate(c, cl, u, j), open, cap);
  }

  lemma UpdateKeeps(cl: C.Client, c: Conn, open: bool, told: bool, env: C.Env, n: nat, cap: nat)
    requires ConnOk(c, open, cap) && Linked(cl, c) && n <= |c.down| && cl.seqno >= 1
    ensures var e := Receiving(c, env, n); UpdateOk(cl, c, open, C.Step(cl, told, e), Updated(cl, c, told, e), cap)
  {
    match cl.state
    case TcpSyning => TcpSyningKeeps(cl, c, open, told, env, n, cap);
    case KeySyning => KeySyningKeeps(cl, c, open, told, env, n, cap);
    case Authing => ReplyKeeps(cl, c, open, told, env, n, cap);
    case Ready => ReplyKeeps(cl, c, open, told, env, n, cap);
    case Done => DoneKeeps(cl, c, open, told, env, n, cap);
  }

  /** A push, taken or refused, sent or not, uses up a number; it can get through only if none was
      refused before it. */
  lemma PushKeeps(cl: C.Client, c: Conn, open: bool, data: seq<byte>, env: C.Env, cap: nat)
    requires ConnOk(c, open, cap) && Linked(cl, c) && cl.state == C.Done && data != [] && cl.seqno < TWO_63
    ensures var p := C.Push(cl, data, env);
      ConnOk(AfterPush(c, data, p), open, cap) && Linked(p.0, AfterPush(c, data, p))
  {
    PushOutcome(cl, data, env);
    PushedKeeps(cl, c, open, data, C.DataMsg(cl, data), C.Push(cl, data, env), cap);
  }

  lemma PushOutcome(cl: C.Client, data: seq<byte>, env: C.Env)
    requires data != [] && cl.state == C.Done && SockOk(C.Done, cl.sock)
    ensures Pushed(cl, C.DataMsg(cl, data), C.Push(cl, data, env))
  {
    C.QueueInOrder(cl.(seqno := cl.seqno + 1), env, C.DataMsg(cl, data));
  }

  /** What a push of m in DONE may do to the client, the buffer and the wire. */
  ghost predicate Pushed(cl: C.Client, m: CsMsg, p: (C.Client, int, seq<CsMsg>, seq<CsMsg>)) {
    && p.0 == cl.(seqno := cl.seqno + 1, sock := p.0.sock, unsent := p.0.unsent) && SockOk(C.Done, p.0.sock)
    && (p.2 == [] || p.2 == [m]) && cl.unsent + p.2 == p.3 + p.0.unsent
  }

  lemma PushedKeeps(cl: C.Client, c: Conn, open: bool, data: seq<byte>, m: CsMsg, p: (C.Client, int, seq<CsMsg>, seq<CsMsg>),
                    cap: nat)
    requires ConnOk(c, open, cap) && Linked(cl, c) && cl.state == C.Done && data != [] && cl.seqno < TWO_63
    requires m == C.DataMsg(cl, data) && Pushed(cl, m, p)
    ensures ConnOk(AfterPush(c, data, p), open, cap) && Linked(p.0, AfterPush(c, data, p))
  {
    var d := AfterPush(c, data, p);
    LineGrows(c, d, p.2, p.3);
    PushKept(c, d, open, m, Attempt(data, p.2 != []), p.2, cap);
  }

  lemma PushKept(c: Conn, d: Conn, open: bool, m: CsMsg, x: Attempt, queued: seq<CsMsg>, cap: nat)
    requires ConnOk(c, open, cap) && c.got == 3 && c.hs == 2
    requires d == c.(up := d.up, unsent := d.unsent, attempts := c.attempts + [x]) && Line(d) == Line(c) + queued
    requires queued == if x.queued then [m] else []
    requires A.DataOf(m) == x.data && m.bodyid == DATA_TRANSPARENT
    requires Numbered(m, c.base + 2 + |c.attempts|) && m.sequence < TWO_63
    ensures ConnOk(d, open, cap)
  {
    BeforeRefusalAppend(c.attempts, x);
    if open {
      if x.queued {
        PushStreams(c, m, x, d);
      } else {
        assert Line(d) == Line(c);
      }
    }
  }

  lemma PushStreams(c: Conn, m: CsMsg, x: Attempt, d: Conn)
    requires Stream(c) && c.base >= 1 && c.session.lastSeq < TWO_63
    requires x.queued && A.DataOf(m) == x.data && m.bodyid == DATA_TRANSPARENT
    requires Numbered(m, c.base + 2 + |c.attempts|) && m.sequence < TWO_63
    requires d == c.(up := d.up, unsent := d.unsent, attempts := c.attempts + [x]) && Line(d) == Line(c) + [m]
    ensures Stream(d)
  {
    var last, l := c.session.lastSeq, Line(c);
    S.AcceptedAppend(last, l, m);
    S.LastAdvances(last, l);
    BeforeRefusalAppend(c.attempts, x);
    var more := S.Accepted(S.LastOf(last, l), [m]);
    DatasAppend(S.Accepted(last, l), more);
    assert |BeforeRefusal(c.attempts)| == |c.forwarded| + |S.Accepted(last, l)|;
    assert [m][1..] == [];
    assert more == if |BeforeRefusal(c.attempts)| == |c.attempts| then [m] else [];
    assert Datas([m]) == [x.data];
    Joined(c.forwarded, Datas(S.Accepted(last, l)), Datas(more));
  }

  lemma PopKeeps(cl: C.Client, c: Conn)
    requires Linked(cl, c) && cl.state == C.Done && c.k <= 3
    ensures Linked(C.Pop(C.Peek(cl).0).0, c)
  {
    if cl.recvq != [] {
      assert cl.recvq[1..] + c.down == (cl.recvq + c.down)[1..];
    }
  }
}
