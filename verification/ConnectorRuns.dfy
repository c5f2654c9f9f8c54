/** The connector against clients and backends that may send anything at all: when a session opens,
    whether its backend had acknowledged it by then, and which backends are chosen. */
module ConnectorRuns {
  import opened Bytes
  import opened ClientMessages
  import opened ConnectorSession
  import opened ConnectorApp

  // ---------- one session ----------

  /** A message that reaches a session, and how the sends it causes go. */
  datatype Event =
    | Front(cs: CsMsg, pos: nat, frontOk: bool, backOk: bool)
    | Back(ss: SsMsg, pos: nat, frontOk: bool, backOk: bool)

  function React(s: Session, used: nat, e: Event): Outcome {
    match e
    case Front(cs, pos, frontOk, backOk) => RecvFront(s, pos, used, cs, frontOk, backOk)
    case Back(ss, pos, frontOk, backOk) => RecvBack(s, pos, used, ss, frontOk, backOk)
  }

  /** With the SYN to the backend unanswered and the send of START_APP working, an accepted message
      of the client, whatever its body, or a message of a backend that is not data. */
  predicate Opening(s: Session, e: Event) {
    s.state == SynAck && e.frontOk && if e.Front? then CheckUp(s, e.cs).1 == 0 else e.ss.id != SsData
  }

  /** A session becomes STATE_OK exactly so, and never leaves it. */
  lemma BecomesOkExactlyWhen(s: Session, used: nat, e: Event)
    ensures React(s, used, e).session.state == Ok <==> s.state == Ok || Opening(s, e)
  {
  }

  /** Event after event, until one of them destroys the connection: the session, and whether it is
      still there. */
  function Play(s: Session, used: nat, es: seq<Event>): (Session, bool)
    decreases |es|
  {
    if es == [] then (s, true)
    else
      var o := React(s, used, es[0]);
      if DestroyFront in o.effects then (o.session, false) else Play(o.session, used, es[1..])
  }

  /** The event that opens the session. */
  function OpenedBy(s: Session, used: nat, es: seq<Event>): Option<Event>
    decreases |es|
  {
    if es == [] then None
    else if Opening(s, es[0]) then Some(es[0])
    else
      var o := React(s, used, es[0]);
      if DestroyFront in o.effects then None else OpenedBy(o.session, used, es[1..])
  }

  /** A backend's ACK was taken while the session waited for it. */
  predicate Acknowledged(s: Session, used: nat, es: seq<Event>)
    decreases |es|
  {
    es != [] &&
    (|| (s.state == SynAck && es[0].Back? && es[0].ss.id == SsAck && es[0].frontOk)
     || (var o := React(s, used, es[0]); DestroyFront !in o.effects && Acknowledged(o.session, used, es[1..])))
  }

  lemma {:induction false} OnceOpen(s: Session, used: nat, es: seq<Event>)
    requires s.state == Ok
    ensures Play(s, used, es).0.state == Ok && !Acknowledged(s, used, es) && OpenedBy(s, used, es) == None
    decreases |es|
  {
    if es != [] {
      BecomesOkExactlyWhen(s, used, es[0]);
      OnceOpen(React(s, used, es[0]).session, used, es[1..]);
    }
  }

  lemma OpeningDestroysNothing(s: Session, used: nat, e: Event)
    requires Opening(s, e)
    ensures DestroyFront !in React(s, used, e).effects
  {
  }

  /** Over any run of a session it ends in STATE_OK if and only if some event opened it, and it
      was acknowledged if and only if that event is the backend's ACK. */
  lemma {:induction false} OkExactlyWhenOpened(s: Session, used: nat, es: seq<Event>)
    requires s.state != Ok
    ensures Play(s, used, es).0.state == Ok <==> OpenedBy(s, used, es).Some?
    ensures Acknowledged(s, used, es) <==>
        OpenedBy(s, used, es).Some? && OpenedBy(s, used, es).value.Back? && OpenedBy(s, used, es).value.ss.id == SsAck
    decreases |es|
  {
    if es != [] {
      var o := React(s, used, es[0]);
      BecomesOkExactlyWhen(s, used, es[0]);
      if Opening(s, es[0]) {
        OpeningDestroysNothing(s, used, es[0]);
        OnceOpen(o.session, used, es[1..]);
      } else if DestroyFront !in o.effects {
        OkExactlyWhenOpened(o.session, used, es[1..]);
      }
    }
  }

  lemma {:induction false} PlaySnoc(s: Session, used: nat, es: seq<Event>, e: Event)
    requires Play(s, used, es).1
    ensures var o := React(Play(s, used, es).0, used, e);
      Play(s, used, es + [e]) == (o.session, DestroyFront !in o.effects)
    decreases |es|
  {
    if es == [] {
      assert [] + [e] == [e] && [e][1..] == [];
    } else {
      assert (es + [e])[1..] == es[1..] + [e];
      PlaySnoc(React(s, used, es[0]).session, used, es[1..], e);
    }
  }

  // ---------- the whole connector ----------

  /** Sessions by nid, the open ones by fd, the position in the set of backends, the backends
      chosen so far, and the events each session has had. */
  datatype Server = Server(sessions: seq<Session>, pool: map<nat, nat>, pos: nat, picks: seq<nat>, heard: seq<seq<Event>>)

  const START := Server([], map[], 0, [], [])

  datatype Input =
    | Accept(fd: nat)
    | FromClient(nid: nat, cs: CsMsg, frontOk: bool, backOk: bool)
    | FromBackend(ss: SsMsg, frontOk: bool, backOk: bool)
    | Drop(nid: nat)

  predicate Live(v: Server, nid: nat) {
    nid < |v.sessions| && v.sessions[nid].fd in v.pool && v.pool[v.sessions[nid].fd] == nid
  }

  function Handle(v: Server, used: nat, nid: nat, e: Event): Server
    requires nid < |v.sessions| == |v.heard|
  {
    var o := React(v.sessions[nid], used, e);
    v.(sessions := v.sessions[nid := o.session], pos := o.pos, picks := v.picks + Picks(o.effects),
       pool := if DestroyFront in o.effects then v.pool - {v.sessions[nid].fd} else v.pool,
       heard := v.heard[nid := v.heard[nid] + [e]])
  }

  /** A step that cannot happen changes nothing; a message of a backend for no open session is
      dropped. */
  function Step(v: Server, used: nat, i: Input): (r: Server)
    requires |v.heard| == |v.sessions|
    ensures |r.heard| == |r.sessions|
  {
    match i
    case Accept(fd) =>
      if fd in v.pool then v
      else
        v.(sessions := v.sessions + [Fresh(fd, |v.sessions|)], pool := v.pool[fd := |v.sessions|], heard := v.heard + [[]])
    case FromClient(nid, cs, frontOk, backOk) =>
      if Live(v, nid) then Handle(v, used, nid, Front(cs, v.pos, frontOk, backOk)) else v
    case FromBackend(ss, frontOk, backOk) =>
      if Live(v, ss.nid) && v.sessions[ss.nid].fd == ss.fd then Handle(v, used, ss.nid, Back(ss, v.pos, frontOk, backOk))
      else v
    case Drop(nid) => if Live(v, nid) then v.(pool := v.pool - {v.sessions[nid].fd}) else v
  }

  function Run(v: Server, used: nat, inputs: seq<Input>): (r: Server)
    requires |v.heard| == |v.sessions|
    ensures |r.heard| == |r.sessions|
    decreases |inputs|
  {
    if inputs == [] then v else Run(Step(v, used, inputs[0]), used, inputs[1..])
  }

  // ---------- what holds of it ----------

  /** The session is what the events it has had make of a fresh one. */
  ghost predicate Explained(v: Server, used: nat, nid: nat)
    requires nid < |v.sessions| == |v.heard|
  {
    var p := Play(Fresh(v.sessions[nid].fd, nid), used, v.heard[nid]);
    p.0 == v.sessions[nid] && (Live(v, nid) ==> p.1)
  }

  ghost predicate Rotating(picks: seq<nat>, pos: nat, used: nat) {
    picks == Choices(0, used, |picks|) && pos == PosAfter(0, used, |picks|)
  }

  ghost predicate Inv(v: Server, used: nat) {
    && |v.heard| == |v.sessions| && used > 0
    && (forall nid :: 0 <= nid < |v.sessions| ==> Explained(v, used, nid))
    && Rotating(v.picks, v.pos, used)
  }

  /** A message that turns to one backend, or to none, keeps the rotation. */
  lemma RotatesOn(picks: seq<nat>, pos: nat, used: nat, o: Outcome)
    requires Rotating(picks, pos, used) && OnePick(o, pos, used)
    ensures Rotating(picks + Picks(o.effects), o.pos, used)
  {
    if Picks(o.effects) == [] {
      assert picks + [] == picks;
    } else {
      ChoicesSnoc(0, used, |picks|);
    }
  }

  lemma ReactKeepsFd(s: Session, used: nat, e: Event)
    ensures React(s, used, e).session.fd == s.fd && React(s, used, e).session.nid == s.nid
  {
    match e
    case Front(cs, pos, frontOk, backOk) => FrontKeepsIds(s, pos, used, cs, frontOk, backOk);
    case Back(ss, pos, frontOk, backOk) => BackKeepsIds(s, pos, used, ss, frontOk, backOk);
  }

  lemma HandleKeeps(v: Server, used: nat, nid: nat, e: Event)
    requires Inv(v, used) && Live(v, nid) && e.pos == v.pos
    ensures Inv(Handle(v, used, nid, e), used)
  {
    var s := v.sessions[nid];
    var o := React(s, used, e);
    var r := Handle(v, used, nid, e);
    ReactKeepsFd(s, used, e);
    match e {
      case Front(cs, pos, frontOk, backOk) => FrontPicks(s, pos, used, cs, frontOk, backOk);
      case Back(ss, pos, frontOk, backOk) => BackPicks(s, pos, used, ss, frontOk, backOk);
    }
    RotatesOn(v.picks, v.pos, used, o);
    assert Explained(v, used, nid);
    PlaySnoc(Fresh(s.fd, nid), used, v.heard[nid], e);
    forall x | 0 <= x < |r.sessions| ensures Explained(r, used, x) {
      assert Explained(v, used, x);
      if x != nid {
        assert r.sessions[x] == v.sessions[x] && r.heard[x] == v.heard[x];
      }
    }
  }

  lemma StepKeeps(v: Server, used: nat, i: Input)
    requires Inv(v, used)
    ensures Inv(Step(v, used, i), used)
  {
    var r := Step(v, used, i);
    match i
    case FromClient(nid, cs, frontOk, backOk) =>
      if Live(v, nid) {
        HandleKeeps(v, used, nid, Front(cs, v.pos, frontOk, backOk));
      }
    case FromBackend(ss, frontOk, backOk) =>
      if Live(v, ss.nid) && v.sessions[ss.nid].fd == ss.fd {
        HandleKeeps(v, used, ss.nid, Back(ss, v.pos, frontOk, backOk));
      }
    case Accept(fd) =>
      forall x | 0 <= x < |r.sessions| ensures Explained(r, used, x) {
        if x < |v.sessions| {
          assert Explained(v, used, x) && r.sessions[x] == v.sessions[x] && r.heard[x] == v.heard[x];
        }
      }
    case Drop(nid) =>
      forall x | 0 <= x < |r.sessions| ensures Explained(r, used, x) {
        assert Explained(v, used, x);
      }
  }

  lemma {:induction false} RunKeeps(v: Server, used: nat, inputs: seq<Input>)
    requires Inv(v, used)
    ensures Inv(Run(v, used, inputs), used)
    decreases |inputs|
  {
    if inputs != [] {
      StepKeeps(v, used, inputs[0]);
      RunKeeps(Step(v, used, inputs[0]), used, inputs[1..]);
    }
  }

  /** Whatever clients and backends send: a session is in STATE_OK if and only if one of the events
      it has had opened it, and its backend has acknowledged it if and only if that event is the
      ACK.  So STATE_OK implies the acknowledgement exactly for the sessions an ACK opened. */
  lemma OkAndAcknowledged(used: nat, inputs: seq<Input>, nid: nat)
    requires used > 0 && nid < |Run(START, used, inputs).sessions|
    ensures var v := Run(START, used, inputs);
      var s, es := Fresh(v.sessions[nid].fd, nid), v.heard[nid];
      var opener := OpenedBy(s, used, es);
      && (v.sessions[nid].state == Ok <==> opener.Some?)
      && (Acknowledged(s, used, es) <==> opener.Some? && opener.value.Back? && opener.value.ss.id == SsAck)
      && ((v.sessions[nid].state == Ok ==> Acknowledged(s, used, es)) <==>
            (opener.Some? ==> opener.value.Back? && opener.value.ss.id == SsAck))
  {
    RunKeeps(START, used, inputs);
    var v := Run(START, used, inputs);
    assert Explained(v, used, nid);
    OkExactlyWhenOpened(Fresh(v.sessions[nid].fd, nid), used, v.heard[nid]);
  }

  /** The k-th backend turned to, over all handshakes and all data of all sessions and whatever the
      outside does, is k mod n; every index is in bounds, and no two backends are more than one
      apart in use. */
  lemma BackendsRotate(used: nat, inputs: seq<Input>, k: nat, a: nat, b: nat)
    requires used > 0 && a < used && b < used
    ensures var picks := Run(START, used, inputs).picks;
      && (k < |picks| ==> picks[k] == k % used < used)
      && -1 <= Count(picks, a) - Count(picks, b) <= 1
  {
    RunKeeps(START, used, inputs);
    var picks := Run(START, used, inputs).picks;
    if k < |picks| {
      ChoicesRotate(0, used, |picks|, k);
    }
    BackendsAreBalanced(0, used, |picks|, a, b);
  }
}
