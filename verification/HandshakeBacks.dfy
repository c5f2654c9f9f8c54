/** What holds of one backend and its two channels, given how far each connection has come with
    its handshake, and that every step keeps it. */
module HandshakeBacks {
  import opened Bytes
  import opened ClientMessages
  import S = ConnectorSession
  import opened HandshakeWorld

  /** What the backends' side depends on of a connection. */
  datatype View = View(fd: nat, phase: Phase)

  /** A message on its way to backend b: the one SYN of a session still waiting, or data of a
      session that has been acknowledged, under its session id. */
  ghost predicate UpOk(m: S.SsMsg, b: nat, vs: seq<View>) {
    && m.nid < |vs| && m.fd == vs[m.nid].fd
    && (|| (m.id == S.SsSyn && vs[m.nid].phase == SynSent(b))
        || (m.id == S.SsData && vs[m.nid].phase.AckDone? && m.sid == vs[m.nid].phase.s))
  }

  /** A message on its way from backend b. */
  ghost predicate DownOk(m: S.SsMsg, b: nat, vs: seq<View>) {
    && m.nid < |vs| && m.fd == vs[m.nid].fd && m.id in {S.SsAck, S.SsFin, S.SsData}
    && (|| vs[m.nid].phase == AckSent(b, m.sid)
        || (vs[m.nid].phase.AckDone? && m.sid == vs[m.nid].phase.s && m.id != S.SsAck))
  }

  ghost predicate NoSynFor(q: seq<S.SsMsg>, nid: nat) {
    forall i :: 0 <= i < |q| ==> q[i].nid == nid ==> q[i].id != S.SsSyn
  }

  ghost predicate SynOnce(q: seq<S.SsMsg>) {
    forall i, j :: 0 <= i < j < |q| && q[i].id == S.SsSyn && q[j].id == S.SsSyn ==> q[i].nid != q[j].nid
  }

  /** The first message about nid is its ACK, and there is no other. */
  ghost predicate AckFirst(q: seq<S.SsMsg>, nid: nat) {
    exists i :: 0 <= i < |q| && AckAt(q, nid, i)
  }

  ghost predicate AckAt(q: seq<S.SsMsg>, nid: nat, i: nat)
    requires i < |q|
  {
    && q[i].nid == nid && q[i].id == S.SsAck
    && (forall j :: 0 <= j < i ==> q[j].nid != nid)
    && (forall j :: i < j < |q| ==> q[j].nid == nid ==> q[j].id != S.SsAck)
  }

  ghost predicate Known(vs: seq<View>, b: nat, nid: nat, p: Peer) {
    && nid < |vs| && p.fd == vs[nid].fd
    && (vs[nid].phase == AckSent(b, p.sid) || (vs[nid].phase.AckDone? && p.sid == vs[nid].phase.s))
  }

  /** What the phase of a connection says about backend b. */
  ghost predicate Holds(back: Back, b: nat, nid: nat, phase: Phase) {
    match phase
    case NoSyn => true
    case SynSent(x) => x == b ==> !NoSynFor(back.toB, nid)
    case Asked(x) => x == b ==> nid in back.asked
    case AckSent(x, s) => x == b ==> AckFirst(back.fromB, nid) && nid in back.acked && back.acked[nid] == s
    case AckDone(x, s) => x == b ==> nid in back.acked && back.acked[nid] == s
  }

  ghost predicate BackOk(back: Back, b: nat, vs: seq<View>) {
    && (forall i :: 0 <= i < |back.toB| ==> UpOk(back.toB[i], b, vs))
    && SynOnce(back.toB)
    && (forall i :: 0 <= i < |back.fromB| ==> DownOk(back.fromB[i], b, vs))
    && (forall nid :: nid in back.asked ==> nid < |vs| && vs[nid].phase == Asked(b) && back.asked[nid] == vs[nid].fd)
    && (forall nid :: nid in back.known ==> Known(vs, b, nid, back.known[nid]))
    && (forall nid :: 0 <= nid < |vs| ==> Holds(back, b, nid, vs[nid].phase))
  }

  // ---------- steps that change a phase ----------

  /** A backend that has nothing to do with a connection is not affected by its progress. */
  lemma ElsewhereKeeps(back: Back, b: nat, vs: seq<View>, nid: nat, p: Phase)
    requires BackOk(back, b, vs) && nid < |vs|
    requires vs[nid].phase.NoSyn? || (!vs[nid].phase.AckDone? && vs[nid].phase.b != b)
    requires !p.NoSyn? && p.b != b
    ensures BackOk(back, b, vs[nid := vs[nid].(phase := p)])
  {
    var us := vs[nid := vs[nid].(phase := p)];
    forall i | 0 <= i < |back.toB| ensures UpOk(back.toB[i], b, us) {
      assert UpOk(back.toB[i], b, vs);
    }
    forall i | 0 <= i < |back.fromB| ensures DownOk(back.fromB[i], b, us) {
      assert DownOk(back.fromB[i], b, vs);
    }
    forall x | x in back.known ensures Known(us, b, x, back.known[x]) {
      assert Known(vs, b, x, back.known[x]);
    }
    forall x | 0 <= x < |us| ensures Holds(back, b, x, us[x].phase) {
      assert Holds(back, b, x, vs[x].phase);
    }
  }

  lemma NewConnKeeps(back: Back, b: nat, vs: seq<View>, fd: nat)
    requires BackOk(back, b, vs)
    ensures BackOk(back, b, vs + [View(fd, NoSyn)])
  {
    var us := vs + [View(fd, NoSyn)];
    forall i | 0 <= i < |back.toB| ensures UpOk(back.toB[i], b, us) {
      assert UpOk(back.toB[i], b, vs);
    }
    forall i | 0 <= i < |back.fromB| ensures DownOk(back.fromB[i], b, us) {
      assert DownOk(back.fromB[i], b, vs);
    }
    forall x | x in back.known ensures Known(us, b, x, back.known[x]) {
      assert Known(vs, b, x, back.known[x]);
    }
    forall x | 0 <= x < |us| ensures Holds(back, b, x, us[x].phase) {
      if x < |vs| {
        assert Holds(back, b, x, vs[x].phase);
      }
    }
  }

  /** The SYN of a new session is queued for backend b. */
  lemma SynKeeps(back: Back, b: nat, vs: seq<View>, m: S.SsMsg)
    requires BackOk(back, b, vs) && m.nid < |vs| && vs[m.nid].phase.NoSyn? && m.fd == vs[m.nid].fd && m.id == S.SsSyn
    ensures BackOk(back.(toB := back.toB + [m]), b, vs[m.nid := vs[m.nid].(phase := SynSent(b))])
  {
    var us := vs[m.nid := vs[m.nid].(phase := SynSent(b))];
    var toB := back.toB + [m];
    forall i | 0 <= i < |toB| ensures UpOk(toB[i], b, us) && (i < |back.toB| ==> toB[i].nid != m.nid) {
      if i < |back.toB| {
        assert UpOk(back.toB[i], b, vs);
      }
    }
    forall i | 0 <= i < |back.fromB| ensures DownOk(back.fromB[i], b, us) {
      assert DownOk(back.fromB[i], b, vs);
    }
    forall x | x in back.known ensures Known(us, b, x, back.known[x]) {
      assert Known(vs, b, x, back.known[x]);
    }
    assert toB[|back.toB|] == m;
    SynHolds(back, b, vs, m);
  }

  lemma SynHolds(back: Back, b: nat, vs: seq<View>, m: S.SsMsg)
    requires m.nid < |vs| && m.id == S.SsSyn
    requires forall x :: 0 <= x < |vs| ==> Holds(back, b, x, vs[x].phase)
    ensures var us := vs[m.nid := vs[m.nid].(phase := SynSent(b))];
      forall x :: 0 <= x < |us| ==> Holds(back.(toB := back.toB + [m]), b, x, us[x].phase)
  {
    var us := vs[m.nid := vs[m.nid].(phase := SynSent(b))];
    var toB := back.toB + [m];
    forall x | 0 <= x < |us| ensures Holds(back.(toB := toB), b, x, us[x].phase) {
      if x == m.nid {
        assert toB[|back.toB|] == m;
      } else {
        assert Holds(back, b, x, vs[x].phase);
        if vs[x].phase == SynSent(b) {
          var i :| 0 <= i < |back.toB| && back.toB[i].nid == x && back.toB[i].id == S.SsSyn;
          assert toB[i] == back.toB[i];
        }
      }
    }
  }

  /** Data of an open session is queued for backend b. */
  lemma DataKeeps(back: Back, b: nat, vs: seq<View>, m: S.SsMsg)
    requires BackOk(back, b, vs) && UpOk(m, b, vs) && m.id == S.SsData
    ensures BackOk(back.(toB := back.toB + [m]), b, vs)
  {
    var after := back.(toB := back.toB + [m]);
    forall i | 0 <= i < |after.toB| ensures UpOk(after.toB[i], b, vs) {
      assert i < |back.toB| ==> after.toB[i] == back.toB[i];
    }
    forall x | 0 <= x < |vs| ensures Holds(after, b, x, vs[x].phase) {
      assert Holds(back, b, x, vs[x].phase);
      if vs[x].phase == SynSent(b) {
        var i :| 0 <= i < |back.toB| && back.toB[i].nid == x && back.toB[i].id == S.SsSyn;
        assert after.toB[i] == back.toB[i];
      }
    }
  }

  /** Backend b takes a SYN. */
  lemma TakeSynKeeps(back: Back, b: nat, vs: seq<View>)
    requires BackOk(back, b, vs) && back.toB != [] && back.toB[0].id == S.SsSyn
    ensures var m := back.toB[0];
      && m.nid < |vs| && vs[m.nid].phase == SynSent(b)
      && BackOk(back.(toB := back.toB[1..], asked := back.asked[m.nid := m.fd]), b, vs[m.nid := vs[m.nid].(phase := Asked(b))])
  {
    var m := back.toB[0];
    assert UpOk(m, b, vs);
    var us := vs[m.nid := vs[m.nid].(phase := Asked(b))];
    var after := back.(toB := back.toB[1..], asked := back.asked[m.nid := m.fd]);
    forall i | 0 <= i < |after.toB| ensures UpOk(after.toB[i], b, us) {
      assert UpOk(back.toB[i + 1], b, vs);
      assert back.toB[i + 1].id == S.SsSyn ==> back.toB[0].nid != back.toB[i + 1].nid;
    }
    forall i | 0 <= i < |after.fromB| ensures DownOk(after.fromB[i], b, us) {
      assert DownOk(back.fromB[i], b, vs);
    }
    forall x | x in after.known ensures Known(us, b, x, after.known[x]) {
      assert Known(vs, b, x, back.known[x]);
    }
    forall x | 0 <= x < |us| ensures Holds(after, b, x, us[x].phase) {
      assert Holds(back, b, x, vs[x].phase);
      if us[x].phase == SynSent(b) {
        TailHasSyn(back.toB, x);
      }
    }
  }

  lemma TailHasSyn(q: seq<S.SsMsg>, x: nat)
    requires q != [] && !NoSynFor(q, x) && (q[0].nid != x || q[0].id != S.SsSyn)
    ensures !NoSynFor(q[1..], x)
  {
    var i :| 0 <= i < |q| && q[i].nid == x && q[i].id == S.SsSyn;
    assert q[1..][i - 1] == q[i];
  }

  /** Backend b takes data, and with it the session's tuple. */
  lemma TakeDataKeeps(back: Back, b: nat, vs: seq<View>)
    requires BackOk(back, b, vs) && back.toB != [] && back.toB[0].id != S.SsSyn
    ensures var m := back.toB[0];
      m.nid < |vs| && BackOk(back.(toB := back.toB[1..], known := back.known[m.nid := Peer(m.fd, m.sid)]), b, vs)
  {
    var m := back.toB[0];
    assert UpOk(m, b, vs);
    var after := back.(toB := back.toB[1..], known := back.known[m.nid := Peer(m.fd, m.sid)]);
    forall i | 0 <= i < |after.toB| ensures UpOk(after.toB[i], b, vs) {
      assert UpOk(back.toB[i + 1], b, vs);
    }
    forall x | 0 <= x < |vs| ensures Holds(after, b, x, vs[x].phase) {
      assert Holds(back, b, x, vs[x].phase);
      if vs[x].phase == SynSent(b) {
        TailHasSyn(back.toB, x);
      }
    }
  }

  lemma AckStaysFirst(q: seq<S.SsMsg>, m: S.SsMsg, nid: nat)
    requires AckFirst(q, nid) && (m.nid == nid ==> m.id != S.SsAck)
    ensures AckFirst(q + [m], nid)
  {
    var i :| 0 <= i < |q| && AckAt(q, nid, i);
    assert AckAt(q + [m], nid, i);
  }

  lemma AckComesFirst(q: seq<S.SsMsg>, m: S.SsMsg)
    requires m.id == S.SsAck && forall i :: 0 <= i < |q| ==> q[i].nid != m.nid
    ensures AckFirst(q + [m], m.nid)
  {
    assert AckAt(q + [m], m.nid, |q|);
  }

  /** Backend b answers a SYN. */
  lemma AnswerKeeps(back: Back, b: nat, vs: seq<View>, nid: nat, sid: nat)
    requires BackOk(back, b, vs) && nid in back.asked
    ensures var m := S.SsMsg(S.SsAck, 0, back.asked[nid], nid, sid, []);
      && nid < |vs| && vs[nid].phase == Asked(b)
      && BackOk(back.(fromB := back.fromB + [m], asked := back.asked - {nid}, acked := back.acked[nid := sid],
                      known := back.known[nid := Peer(back.asked[nid], sid)]),
                b, vs[nid := vs[nid].(phase := AckSent(b, sid))])
  {
    var m := S.SsMsg(S.SsAck, 0, back.asked[nid], nid, sid, []);
    var us := vs[nid := vs[nid].(phase := AckSent(b, sid))];
    var after := back.(fromB := back.fromB + [m], asked := back.asked - {nid}, acked := back.acked[nid := sid],
                       known := back.known[nid := Peer(back.asked[nid], sid)]);
    forall i | 0 <= i < |back.fromB| ensures back.fromB[i].nid != nid && DownOk(back.fromB[i], b, us) {
      assert DownOk(back.fromB[i], b, vs);
    }
    AckComesFirst(back.fromB, m);
    forall i | 0 <= i < |after.fromB| ensures DownOk(after.fromB[i], b, us) {
      assert i < |back.fromB| ==> after.fromB[i] == back.fromB[i];
    }
    forall i | 0 <= i < |after.toB| ensures UpOk(after.toB[i], b, us) {
      assert UpOk(back.toB[i], b, vs);
    }
    forall x | x in after.known ensures Known(us, b, x, after.known[x]) {
      assert x != nid ==> Known(vs, b, x, back.known[x]);
    }
    forall x | 0 <= x < |us| ensures Holds(after, b, x, us[x].phase) {
      assert Holds(back, b, x, vs[x].phase);
      if x != nid && us[x].phase.AckSent? && us[x].phase.b == b {
        AckStaysFirst(back.fromB, m, x);
      }
    }
  }

  /** Backend b sends data or a FIN for a session it knows. */
  lemma SendKeeps(back: Back, b: nat, vs: seq<View>, nid: nat, fin: bool, data: seq<byte>)
    requires BackOk(back, b, vs) && nid in back.known
    ensures var m := S.SsMsg(if fin then S.SsFin else S.SsData, 0, back.known[nid].fd, nid, back.known[nid].sid, data);
      BackOk(back.(fromB := back.fromB + [m]), b, vs)
  {
    var m := S.SsMsg(if fin then S.SsFin else S.SsData, 0, back.known[nid].fd, nid, back.known[nid].sid, data);
    var after := back.(fromB := back.fromB + [m]);
    assert Known(vs, b, nid, back.known[nid]);
    forall i | 0 <= i < |after.fromB| ensures DownOk(after.fromB[i], b, vs) {
      assert i < |back.fromB| ==> after.fromB[i] == back.fromB[i];
    }
    forall x | 0 <= x < |vs| ensures Holds(after, b, x, vs[x].phase) {
      assert Holds(back, b, x, vs[x].phase);
      if vs[x].phase.AckSent? && vs[x].phase.b == b {
        AckStaysFirst(back.fromB, m, x);
      }
    }
  }

  lemma TailHasAck(q: seq<S.SsMsg>, nid: nat)
    requires q != [] && AckFirst(q, nid) && q[0].nid != nid
    ensures AckFirst(q[1..], nid)
  {
    var i :| 0 <= i < |q| && AckAt(q, nid, i);
    assert AckAt(q[1..], nid, i - 1);
  }

  /** The connector takes the ACK of a session: the head of the channel, if it is about a session
      still waiting, is that ACK and nothing else. */
  lemma AckTaken(back: Back, b: nat, vs: seq<View>)
    requires BackOk(back, b, vs) && back.fromB != []
    requires back.fromB[0].nid < |vs| && !vs[back.fromB[0].nid].phase.AckDone?
    ensures var m := back.fromB[0];
      && m.id == S.SsAck && vs[m.nid].phase == AckSent(b, m.sid)
      && BackOk(back.(fromB := back.fromB[1..]), b, vs[m.nid := vs[m.nid].(phase := AckDone(b, m.sid))])
  {
    var m := back.fromB[0];
    var after := back.(fromB := back.fromB[1..]);
    var us := vs[m.nid := vs[m.nid].(phase := AckDone(b, m.sid))];
    assert DownOk(m, b, vs);
    assert Holds(back, b, m.nid, vs[m.nid].phase);
    var k :| 0 <= k < |back.fromB| && AckAt(back.fromB, m.nid, k);
    assert k == 0;
    forall i | 0 <= i < |after.fromB| ensures DownOk(after.fromB[i], b, us) {
      assert DownOk(back.fromB[i + 1], b, vs);
    }
    forall i | 0 <= i < |after.toB| ensures UpOk(after.toB[i], b, us) {
      assert UpOk(back.toB[i], b, vs);
    }
    forall x | x in after.known ensures Known(us, b, x, after.known[x]) {
      assert Known(vs, b, x, back.known[x]);
    }
    forall x | 0 <= x < |us| ensures Holds(after, b, x, us[x].phase) {
      assert Holds(back, b, x, vs[x].phase);
      if x != m.nid && us[x].phase.AckSent? && us[x].phase.b == b {
        TailHasAck(back.fromB, x);
      }
    }
  }

  /** The connector takes anything else. */
  lemma OtherTaken(back: Back, b: nat, vs: seq<View>)
    requires BackOk(back, b, vs) && back.fromB != []
    requires back.fromB[0].nid < |vs| && vs[back.fromB[0].nid].phase.AckDone?
    ensures var m := back.fromB[0];
      && m.id in {S.SsFin, S.SsData} && m.sid == vs[m.nid].phase.s && m.fd == vs[m.nid].fd
      && BackOk(back.(fromB := back.fromB[1..]), b, vs)
  {
    var after := back.(fromB := back.fromB[1..]);
    assert DownOk(back.fromB[0], b, vs);
    forall i | 0 <= i < |after.fromB| ensures DownOk(after.fromB[i], b, vs) {
      assert DownOk(back.fromB[i + 1], b, vs);
    }
    forall x | 0 <= x < |vs| ensures Holds(after, b, x, vs[x].phase) {
      assert Holds(back, b, x, vs[x].phase);
      if vs[x].phase.AckSent? && vs[x].phase.b == b {
        TailHasAck(back.fromB, x);
      }
    }
  }
}
