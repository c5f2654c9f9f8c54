/** The connector's two message handlers, which drive the sessions and route between clients and
    backends. */
module ConnectorApp {
  import opened Bytes
  import opened ClientMessages
  import opened ConnectorSession

  function DataOf(m: CsMsg): seq<byte> {
    if m.body.DataBody? then m.body.data else []
  }

  /** The handshake part of OnRecvFrontEnd: one step, and a second straight after authentication. */
  function Shake(c: Session, pos: nat, used: nat, frontOk: bool, backOk: bool): Outcome {
    var d := Drive(c, pos, used, frontOk, backOk);
    if d.ret < 0 then Outcome(d.session, d.pos, d.effects + [DestroyFront], -1)
    else if d.session.state != Syning then Outcome(d.session, d.pos, d.effects, 0)
    else
      var e := Drive(d.session, d.pos, used, frontOk, backOk);
      if e.ret < 0 then Outcome(e.session, e.pos, d.effects + e.effects + [DestroyFront], -1)
      else Outcome(e.session, e.pos, d.effects + e.effects, 0)
  }

  /** OnRecvFrontEnd: a message from the client of session s. */
  function RecvFront(s: Session, pos: nat, used: nat, m: CsMsg, frontOk: bool, backOk: bool): Outcome {
    var (c, checked) := CheckUp(s, m);
    if checked != 0 then Outcome(c, pos, [], -1)
    else if c.state != Ok then Shake(c, pos, used, frontOk, backOk)
    else if m.bodyid != DATA_TRANSPARENT then Outcome(c, pos, [], -1)
    else ForwardUp(c, pos, used, m.sequence, DataOf(m), backOk)
  }

  /** OnRecvBackEnd, once the session the message names has been found. */
  function RecvBack(s: Session, pos: nat, used: nat, m: SsMsg, frontOk: bool, backOk: bool): Outcome {
    if m.id != SsData then
      if m.id != SsFin && s.state == Ok then Outcome(s, pos, [], 0)
      else
        var d := Drive(s, pos, used, frontOk, backOk);
        if d.ret < 0 then Outcome(d.session, d.pos, d.effects + [DestroyFront], -1)
        else Outcome(d.session.(sid := m.sid), d.pos, d.effects, 0)
    else if s.state != Ok then Outcome(s, pos, [DestroyFront], -1)
    else if s.sid != m.sid then Outcome(s, pos, [DestroyFront], -1)
    else ForwardDown(s, pos, m.sequence, m.data, frontOk)
  }

  // ---------- what the handlers guarantee, and what they do not ----------

  /** A message with the wrong magic or out of sequence does nothing at all, and these are the
      only ones that leave the filter where it was, unless they repeat its own number. */
  lemma RejectedChangesNothing(s: Session, pos: nat, used: nat, m: CsMsg, frontOk: bool, backOk: bool)
    ensures CheckUp(s, m).1 != 0 ==> RecvFront(s, pos, used, m, frontOk, backOk) == Outcome(s, pos, [], -1)
    ensures CheckUp(s, m).1 == 0 ==> RecvFront(s, pos, used, m, frontOk, backOk).session.lastSeq == U64(m.sequence)
    ensures CheckUp(s, m).1 == 0 <==> m.magic == MAGIC_CS_V1 && (s.lastSeq == 0 || U64(m.sequence) == NextSeq(s.lastSeq))
  {
  }

  predicate IsData(e: Effect) {
    e.ToFront? && e.msg.bodyid == DATA_TRANSPARENT
  }

  /** Data goes down exactly for a non-empty DATA message that meets its session in STATE_OK
      under the session id set when that session was acknowledged, and then goes down as it is. */
  lemma DataGoesDownOnlyWhenOk(s: Session, pos: nat, used: nat, m: SsMsg, frontOk: bool, backOk: bool, e: Effect)
    ensures var effects := RecvBack(s, pos, used, m, frontOk, backOk).effects;
      IsData(e) && e in effects <==>
        && m.id == SsData && s.state == Ok && s.sid == m.sid && m.data != []
        && e == ToFront(DownMsg(m.sequence, m.data), frontOk)
  {
  }

  /** The right magic, and the first or the next number. */
  predicate Passes(s: Session, m: CsMsg) {
    m.magic == MAGIC_CS_V1 && (s.lastSeq == 0 || U64(m.sequence) == NextSeq(s.lastSeq))
  }

  /** Data goes to a backend exactly for a message of kind DATA_TRANSPARENT that passes the filter
      in STATE_OK, and then carries its payload, its number and the session's tuple. */
  lemma DataGoesUpOnlyWhenOk(s: Session, pos: nat, used: nat, m: CsMsg, frontOk: bool, backOk: bool, e: Effect)
    ensures var effects := RecvFront(s, pos, used, m, frontOk, backOk).effects;
      e.ToBack? && e.up.id == SsData && e in effects <==>
        && s.state == Ok && Passes(s, m) && m.bodyid == DATA_TRANSPARENT && used > 0
        && e == ToBack(Choose(pos, used), SsMsg(SsData, m.sequence, s.fd, s.nid, s.sid, DataOf(m)), backOk)
  {
  }

  /** Any other message that passes in STATE_OK is only counted by the filter. */
  lemma OthersAreOnlyCounted(s: Session, pos: nat, used: nat, m: CsMsg, frontOk: bool, backOk: bool)
    requires s.state == Ok && Passes(s, m) && m.bodyid != DATA_TRANSPARENT
    ensures RecvFront(s, pos, used, m, frontOk, backOk) == Outcome(s.(lastSeq := U64(m.sequence)), pos, [], -1)
  {
  }

  /** What the session is about to tell its client, or nothing. */
  function NextReply(state: State): Option<CsMsg> {
    match state
    case Init => Some(SynAckMsg())
    case Auth => Some(PassportMsg())
    case Syning => None
    case SynAck => Some(StartMsg())
    case Ok => None
  }

  lemma ReplyOutcome(c: Session, pos: nat, used: nat, frontOk: bool, backOk: bool)
    requires c.state in {Init, SynAck} || (c.state == Auth && !frontOk)
    ensures var r := NextReply(c.state).value;
      Shake(c, pos, used, frontOk, backOk).effects
        == if frontOk then [ToFront(r, true)] else [ToFront(r, false), DestroyFront, DestroyFront]
  {
  }

  lemma StartOutcome(c: Session, pos: nat, used: nat, frontOk: bool, backOk: bool)
    requires c.state == Syning || (c.state == Auth && frontOk)
    ensures var first := if c.state == Auth then [ToFront(PassportMsg(), true)] else [];
      var syn := ToBack(Choose(pos, used), SsMsg(SsSyn, 1, c.fd, c.nid, c.sid, []), backOk);
      Shake(c, pos, used, frontOk, backOk).effects
        == if used == 0 then first + [DestroyFront] else if backOk then first + [syn] else first + [syn, DestroyFront]
  {
    if c.state == Auth {
      assert [ToFront(PassportMsg(), true)] + [] + [DestroyFront] == [ToFront(PassportMsg(), true)] + [DestroyFront];
    }
  }

  /** Before STATE_OK a message that passes is answered with the reply its state owes, and with
      nothing else. */
  lemma RepliesGoDown(s: Session, pos: nat, used: nat, m: CsMsg, frontOk: bool, backOk: bool, e: Effect)
    ensures var effects := RecvFront(s, pos, used, m, frontOk, backOk).effects;
      e.ToFront? && e in effects <==>
        Passes(s, m) && NextReply(s.state).Some? && e == ToFront(NextReply(s.state).value, frontOk)
  {
    var c := CheckUp(s, m).0;
    if c.state in {Init, SynAck} || (c.state == Auth && !frontOk) {
      ReplyOutcome(c, pos, used, frontOk, backOk);
    } else if c.state != Ok {
      StartOutcome(c, pos, used, frontOk, backOk);
    }
  }

  /** A message that passes right after the PASSPORT, or when the SYN had failed. */
  predicate Starts(s: Session, m: CsMsg, frontOk: bool) {
    Passes(s, m) && (s.state == Syning || (s.state == Auth && frontOk))
  }

  /** Then, and only then, a SYN with the session's tuple goes to the next backend. */
  lemma SynGoesUpOnlyWhenStarting(s: Session, pos: nat, used: nat, m: CsMsg, frontOk: bool, backOk: bool, e: Effect)
    ensures var effects := RecvFront(s, pos, used, m, frontOk, backOk).effects;
      e.ToBack? && e.up.id != SsData && e in effects <==>
        && Starts(s, m, frontOk) && used > 0
        && e == ToBack(Choose(pos, used), SsMsg(SsSyn, 1, s.fd, s.nid, s.sid, []), backOk)
  {
    var c := CheckUp(s, m).0;
    if c.state in {Init, SynAck} || (c.state == Auth && !frontOk) {
      ReplyOutcome(c, pos, used, frontOk, backOk);
    } else if c.state != Ok {
      StartOutcome(c, pos, used, frontOk, backOk);
    }
  }

  /** A client's message destroys its connection exactly when the reply or the SYN it brings about
      cannot be sent. */
  lemma FrontDestroysExactlyWhen(s: Session, pos: nat, used: nat, m: CsMsg, frontOk: bool, backOk: bool)
    ensures DestroyFront in RecvFront(s, pos, used, m, frontOk, backOk).effects <==>
        || (Starts(s, m, frontOk) && !(used > 0 && backOk))
        || (Passes(s, m) && NextReply(s.state).Some? && !frontOk)
  {
    var c := CheckUp(s, m).0;
    if c.state in {Init, SynAck} || (c.state == Auth && !frontOk) {
      ReplyOutcome(c, pos, used, frontOk, backOk);
    } else if c.state != Ok {
      StartOutcome(c, pos, used, frontOk, backOk);
    }
  }

  /** A backend's does so exactly when its data meets another state or another sid, when it is a
      FIN in STATE_OK, or when what it brings about cannot be sent. */
  lemma BackDestroysExactlyWhen(s: Session, pos: nat, used: nat, m: SsMsg, frontOk: bool, backOk: bool)
    ensures DestroyFront in RecvBack(s, pos, used, m, frontOk, backOk).effects <==>
        if m.id == SsData then s.state != Ok || s.sid != m.sid
        else || (m.id == SsFin && s.state == Ok)
             || (s.state == Syning && !(used > 0 && backOk))
             || (NextReply(s.state).Some? && !frontOk)
  {
  }

  /** The state a client's message leaves behind. */
  lemma HandshakeStates(s: Session, pos: nat, used: nat, m: CsMsg, frontOk: bool, backOk: bool)
    ensures var o := RecvFront(s, pos, used, m, frontOk, backOk);
      o.session == s.(lastSeq := if Passes(s, m) then U64(m.sequence) else s.lastSeq,
                      state := if !Passes(s, m) || (NextReply(s.state).Some? && !frontOk) then s.state
                               else if s.state == Init then Auth
                               else if s.state in {Auth, Syning} then if used > 0 && backOk then SynAck else Syning
                               else Ok)
  {
  }

  /** A backend's message that is not data takes a session that is not open one step on, whatever
      it is, with the reply or the SYN of its state. */
  lemma BackDrives(s: Session, pos: nat, used: nat, m: SsMsg, frontOk: bool, backOk: bool, e: Effect)
    ensures var effects := RecvBack(s, pos, used, m, frontOk, backOk).effects;
      && (e.ToFront? && !IsData(e) && e in effects <==>
            m.id != SsData && NextReply(s.state).Some? && e == ToFront(NextReply(s.state).value, frontOk))
      && (e.ToBack? && e in effects <==>
            && m.id != SsData && s.state == Syning && used > 0
            && e == ToBack(Choose(pos, used), SsMsg(SsSyn, 1, s.fd, s.nid, s.sid, []), backOk))
  {
  }

  /** And then, and only then, the session takes the message's session id. */
  lemma BackStates(s: Session, pos: nat, used: nat, m: SsMsg, frontOk: bool, backOk: bool)
    ensures var o := RecvBack(s, pos, used, m, frontOk, backOk);
      var stepped := m.id != SsData && (NextReply(s.state).Some? ==> frontOk) && (s.state == Syning ==> used > 0 && backOk);
      o.session == if !stepped || (s.state == Ok && m.id != SsFin) then s
                   else s.(sid := m.sid, state := if s.state == Init then Auth else if s.state == Auth then Syning
                                                  else if s.state == Syning then SynAck else Ok)
  {
  }

  /** The handlers never look at the body id before STATE_OK: with a SYN to the backend still
      unanswered, any further message of the client, whatever it is, opens the session. */
  lemma ClientOpensUnacknowledged(s: Session, pos: nat, used: nat, m: CsMsg, backOk: bool)
    requires s.state == SynAck && CheckUp(s, m).1 == 0
    ensures var o := RecvFront(s, pos, used, m, true, backOk);
      o.session.state == Ok && o.effects == [ToFront(StartMsg(), true)] && o.session.sid == s.sid
  {
  }

  /** Nor do they tell the backend's answers apart: a FIN that meets a session waiting for its
      ACK opens it too. */
  lemma FinOpensUnacknowledged(s: Session, pos: nat, used: nat, m: SsMsg, backOk: bool)
    requires s.state == SynAck && m.id in {SsFin, SsRsm, SsSyn, SsAck}
    ensures var o := RecvBack(s, pos, used, m, true, backOk);
      o.session.state == Ok && o.effects == [ToFront(StartMsg(), true)] && o.session.sid == m.sid
  {
  }

  // ---------- what no message changes ----------

  lemma DriveKeepsIds(s: Session, pos: nat, used: nat, frontOk: bool, backOk: bool)
    ensures var r := Drive(s, pos, used, frontOk, backOk).session; r.fd == s.fd && r.nid == s.nid
  {
  }

  lemma FrontKeepsIds(s: Session, pos: nat, used: nat, m: CsMsg, frontOk: bool, backOk: bool)
    ensures var r := RecvFront(s, pos, used, m, frontOk, backOk).session; r.fd == s.fd && r.nid == s.nid
  {
    var c := CheckUp(s, m).0;
    var d := Drive(c, pos, used, frontOk, backOk);
    DriveKeepsIds(c, pos, used, frontOk, backOk);
    DriveKeepsIds(d.session, d.pos, used, frontOk, backOk);
  }

  lemma BackKeepsIds(s: Session, pos: nat, used: nat, m: SsMsg, frontOk: bool, backOk: bool)
    ensures var r := RecvBack(s, pos, used, m, frontOk, backOk).session; r.fd == s.fd && r.nid == s.nid
  {
    DriveKeepsIds(s, pos, used, frontOk, backOk);
  }

  // ---------- choosing backends ----------

  lemma ShakePicks(c: Session, pos: nat, used: nat, frontOk: bool, backOk: bool)
    requires used > 0
    ensures OnePick(Shake(c, pos, used, frontOk, backOk), pos, used)
  {
    var d := Drive(c, pos, used, frontOk, backOk);
    DrivePicks(c, pos, used, frontOk, backOk);
    PicksAdd(d.effects, [DestroyFront]);
    assert Picks([DestroyFront]) == [];
    if d.ret >= 0 && d.session.state == Syning {
      var e := Drive(d.session, d.pos, used, frontOk, backOk);
      DrivePicks(d.session, d.pos, used, frontOk, backOk);
      PicksAdd(d.effects, e.effects);
      PicksAdd(d.effects + e.effects, [DestroyFront]);
    }
  }

  /** Whatever a client sends and however the sends go, the next backend is chosen at most once. */
  lemma FrontPicks(s: Session, pos: nat, used: nat, m: CsMsg, frontOk: bool, backOk: bool)
    requires used > 0
    ensures OnePick(RecvFront(s, pos, used, m, frontOk, backOk), pos, used)
  {
    ShakePicks(CheckUp(s, m).0, pos, used, frontOk, backOk);
    var o := RecvFront(s, pos, used, m, frontOk, backOk);
    if s.state == Ok && o.effects != [] {
      assert o.effects[1..] == [];
    }
  }

  lemma BackPicks(s: Session, pos: nat, used: nat, m: SsMsg, frontOk: bool, backOk: bool)
    requires used > 0
    ensures OnePick(RecvBack(s, pos, used, m, frontOk, backOk), pos, used)
  {
    var o := RecvBack(s, pos, used, m, frontOk, backOk);
    if m.id != SsData {
      var d := Drive(s, pos, used, frontOk, backOk);
      DrivePicks(s, pos, used, frontOk, backOk);
      PicksAdd(d.effects, [DestroyFront]);
      assert Picks([DestroyFront]) == [];
    } else if o.effects != [] {
      assert o.effects[1..] == [];
    }
  }

  // ---------- the class ----------

  class ConnectorApp {
    const backEnds: BackEndSet
    const frame: FrameStub

    constructor ()
      ensures fresh(backEnds) && fresh(backEnds.backends) && fresh(frame) && backEnds.Valid() && backEnds.used == 0
    {
      backEnds := new BackEndSet();
      frame := new FrameStub();
    }

    method OnFrontEndConnect(fd: nat, nid: nat) returns (session: ConnectorSession)
      ensures fresh(session) && session.View() == Fresh(fd, nid)
      ensures session.backEnds == backEnds && session.frame == frame
    {
      session := new ConnectorSession(fd, nid, backEnds, frame);
    }

    method OnRecvFrontEnd(session: ConnectorSession, upMsg: CsMsg, frontOk: bool, backOk: bool) returns (ret: int)
      requires session.Ready()
      modifies session, session.frame, session.backEnds`pos
      ensures session.Becomes(RecvFront(old(session.View()), old(session.backEnds.pos), session.backEnds.used, upMsg,
                                        frontOk, backOk), ret)
    {
      ret := session.CheckUpSideMessage(upMsg);
      if ret != 0 {
        return -1;
      }
      if session.state != Ok {
        ret := Handshake(session, frontOk, backOk);
      } else {
        if upMsg.bodyid != DATA_TRANSPARENT {
          return -1;
        }
        ret := session.ForwardUpSideMessage(upMsg.sequence, DataOf(upMsg), backOk);
      }
    }

    method Handshake(session: ConnectorSession, frontOk: bool, backOk: bool) returns (ret: int)
      requires session.Ready()
      modifies session, session.frame, session.backEnds`pos
      ensures session.Becomes(Shake(old(session.View()), old(session.backEnds.pos), session.backEnds.used, frontOk, backOk), ret)
    {
      ret := session.DriveStateMachine(frontOk, backOk);
      if ret < 0 {
        session.frame.Record(DestroyFront);
        return -1;
      }
      if session.state == Syning {
        ret := session.DriveStateMachine(frontOk, backOk);
        if ret < 0 {
          session.frame.Record(DestroyFront);
          return -1;
        }
      }
      ret := 0;
    }

    /** found is what the framework's lookup of (fd, nid) gives. */
    method OnRecvBackEnd(found: ConnectorSession?, downMsg: SsMsg, frontOk: bool, backOk: bool) returns (ret: int)
      requires found != null ==> found.Ready()
      modifies if found == null then {} else {found, found.frame}
      modifies if found == null then {} else {found.backEnds}
      ensures found == null ==> ret == -1
      ensures found != null ==> found.Becomes(
          RecvBack(old(found.View()), old(found.backEnds.pos), found.backEnds.used, downMsg, frontOk, backOk), ret)
    {
      if found == null {
        return -1;
      }
      if downMsg.id != SsData {
        if downMsg.id != SsFin && found.state == Ok {
          return 0;
        }
        ret := found.DriveStateMachine(frontOk, backOk);
        if ret < 0 {
          found.frame.Record(DestroyFront);
          return -1;
        }
        found.sid := downMsg.sid;
        return 0;
      }
      if found.state != Ok {
        found.frame.Record(DestroyFront);
        return -1;
      }
      if found.sid != downMsg.sid {
        found.frame.Record(DestroyFront);
        return -1;
      }
      ret := found.ForwardDownSideMessage(downMsg.sequence, downMsg.data, frontOk);
    }
  }
}
