/** The connector's half: one session's state machine, its sequence filter, and the round-robin
    set of backends all sessions share.  Whether a send to the client or to a backend works out
    is a parameter; what is sent, and the order to destroy the connection, are recorded. */
module ConnectorSession {
  import opened Bytes
  import opened ClientMessages

  datatype SsId = SsSyn | SsAck | SsRsm | SsFin | SsData

  /** SSMsg: the body id, the tuple (fd, nid, sid) that names a session, and the payload. */
  datatype SsMsg = SsMsg(id: SsId, sequence: int, fd: nat, nid: nat, sid: nat, data: seq<byte>)

  datatype State = Init | Auth | Syning | SynAck | Ok

  datatype Session = Session(state: State, fd: nat, nid: nat, sid: nat, lastSeq: nat)

  /** sid_ starts as -1 in an unsigned 32-bit field. */
  const NO_SID: nat := TWO_32 - 1

  datatype Effect = ToFront(msg: CsMsg, ok: bool) | ToBack(backend: nat, up: SsMsg, ok: bool) | DestroyFront

  function Fresh(fd: nat, nid: nat): Session {
    Session(Init, fd, nid, NO_SID, 0)
  }

  // ---------- the backends ----------

  const MAX_BACKENDS: nat := 32

  /** Which backend comes next, and the position after it. */
  function Choose(pos: nat, used: nat): nat {
    if pos >= used then 0 else pos
  }

  function Choices(pos: nat, used: nat, k: nat): (choices: seq<nat>)
    ensures |choices| == k
    decreases k
  {
    if k == 0 then [] else [Choose(pos, used)] + Choices(Choose(pos, used) + 1, used, k - 1)
  }

  /** x mod n, by counting laps. */
  function Lap(x: nat, n: nat): nat
    requires n > 0
    decreases x
  {
    if x < n then x else Lap(x - n, n)
  }

  lemma LapIsMod(q: int, r: int, n: int)
    requires 0 <= r < n && 0 <= q
    ensures q * n + r >= 0 && Lap(q * n + r, n) == r
    decreases q
  {
    if q > 0 {
      LapIsMod(q - 1, r, n);
      assert q * n + r == (q - 1) * n + r + n;
    }
  }

  lemma {:induction false} ChoicesLap(pos: nat, n: nat, k: nat, i: nat)
    requires n > 0 && i < k && pos <= n
    ensures Choices(pos, n, k)[i] == Lap(pos + i, n)
    decreases k
  {
    var p := Choose(pos, n);
    if i > 0 {
      ChoicesLap(p + 1, n, k - 1, i - 1);
      assert Choices(pos, n, k)[i] == Choices(p + 1, n, k - 1)[i - 1];
    }
  }

  /** With n backends the choice i turns after position pos is pos + i mod n, and
      always in bounds. */
  lemma ChoicesRotate(pos: nat, n: nat, k: nat, i: nat)
    requires n > 0 && i < k && pos <= n
    ensures Choices(pos, n, k)[i] == (pos + i) % n < n
  {
    ChoicesLap(pos, n, k, i);
    var q, r := QuotientAndRest(pos + i, n);
    LapIsMod(q, r, n);
  }

  lemma QuotientAndRest(x: nat, n: nat) returns (q: nat, r: nat)
    requires n > 0
    ensures x == q * n + r && r == x % n < n
  {
    q, r := x / n, x % n;
  }

  function PosAfter(pos: nat, used: nat, k: nat): nat
    decreases k
  {
    if k == 0 then pos else PosAfter(Choose(pos, used) + 1, used, k - 1)
  }

  /** One more choice goes on from where the others ended. */
  lemma {:induction false} ChoicesSnoc(pos: nat, used: nat, k: nat)
    ensures Choices(pos, used, k + 1) == Choices(pos, used, k) + [Choose(PosAfter(pos, used, k), used)]
    ensures PosAfter(pos, used, k + 1) == Choose(PosAfter(pos, used, k), used) + 1
    decreases k
  {
    if k > 0 {
      ChoicesSnoc(Choose(pos, used) + 1, used, k - 1);
    }
  }

  function Count(choices: seq<nat>, b: nat): nat {
    if choices == [] then 0 else (if choices[0] == b then 1 else 0) + Count(choices[1..], b)
  }

  /** How often backend b is among the next k choices. */
  function Times(pos: nat, n: nat, k: nat, b: nat): nat {
    Count(Choices(pos, n, k), b)
  }

  /** How many choices away b is. */
  function Away(pos: nat, n: nat, b: nat): int {
    var p := Choose(pos, n);
    if b >= p then b - p else b + n - p
  }

  lemma {:induction false} SoonerIsOneAhead(pos: nat, n: nat, k: nat, a: nat, b: nat)
    requires a < n && b < n && pos <= n && Away(pos, n, a) < Away(pos, n, b)
    ensures 0 <= Times(pos, n, k, a) - Times(pos, n, k, b) <= 1
    decreases k
  {
    if k > 0 {
      var p := Choose(pos, n);
      var rest := Choices(p + 1, n, k - 1);
      assert Choices(pos, n, k)[1..] == rest;
      if a == p {
        SoonerIsOneAhead(p + 1, n, k - 1, b, a);
      } else {
        SoonerIsOneAhead(p + 1, n, k - 1, a, b);
      }
    }
  }

  /** Any two backends have been used equally often, give or take one. */
  lemma BackendsAreBalanced(pos: nat, n: nat, k: nat, a: nat, b: nat)
    requires a < n && b < n && pos <= n
    ensures -1 <= Times(pos, n, k, a) - Times(pos, n, k, b) <= 1
  {
    if Away(pos, n, a) < Away(pos, n, b) {
      SoonerIsOneAhead(pos, n, k, a, b);
    } else if a != b {
      SoonerIsOneAhead(pos, n, k, b, a);
    }
  }

  // ---------- the sequence filter ----------

  /** last_seq_ is a uint64_t, and the message's int64 number is converted to that. */
  function U64(i: int): nat {
    if 0 <= i then i else i % TWO_64
  }

  function NextSeq(last: nat): nat {
    if last == TWO_64 - 1 then 0 else last + 1
  }

  /** CheckUpSideMessage. */
  function CheckUp(s: Session, m: CsMsg): (r: (Session, int)) {
    if m.magic != MAGIC_CS_V1 then (s, -1)
    else if s.lastSeq != 0 && U64(m.sequence) != NextSeq(s.lastSeq) then (s, -1)
    else (s.(lastSeq := U64(m.sequence)), 0)
  }

  /** What the filter lets through of a whole stream, and where it then stands. */
  function Accepted(lastSeq: nat, ms: seq<CsMsg>): seq<CsMsg>
    decreases |ms|
  {
    if ms == [] then []
    else
      var (s, ret) := CheckUp(Session(Init, 0, 0, 0, lastSeq), ms[0]);
      if ret == 0 then [ms[0]] + Accepted(s.lastSeq, ms[1..]) else Accepted(s.lastSeq, ms[1..])
  }

  function First(lastSeq: nat, accepted: seq<CsMsg>): nat {
    if lastSeq != 0 || accepted == [] then lastSeq + 1 else U64(accepted[0].sequence)
  }

  ghost predicate Consecutive(ms: seq<CsMsg>, first: nat) {
    forall i :: 0 <= i < |ms| ==> ms[i].magic == MAGIC_CS_V1 && U64(ms[i].sequence) == first + i
  }

  /** Every number is an int64 and none is zero. */
  ghost predicate NonZero(ms: seq<CsMsg>) {
    forall i :: 0 <= i < |ms| ==> -TWO_63 <= ms[i].sequence < TWO_63 && ms[i].sequence != 0
  }

  lemma NonZeroHead(ms: seq<CsMsg>)
    requires NonZero(ms) && ms != []
    ensures 0 < U64(ms[0].sequence) < TWO_64 && NonZero(ms[1..])
  {
  }

  /** On any stream of non-zero numbers, negative ones included, the messages let through are
      exactly consecutive, from the first with the right magic, or from where the filter stood. */
  lemma {:induction false} AcceptedAreConsecutive(lastSeq: nat, ms: seq<CsMsg>)
    requires lastSeq < TWO_64 && NonZero(ms)
    ensures Consecutive(Accepted(lastSeq, ms), First(lastSeq, Accepted(lastSeq, ms)))
    decreases |ms|
  {
    if ms != [] {
      var next := CheckUp(Session(Init, 0, 0, 0, lastSeq), ms[0]).0.lastSeq;
      NonZeroHead(ms);
      AcceptedAreConsecutive(next, ms[1..]);
      assert next != lastSeq ==> Accepted(lastSeq, ms) == [ms[0]] + Accepted(next, ms[1..]);
    }
  }

  /** Where the filter stands after a stream. */
  function LastOf(lastSeq: nat, ms: seq<CsMsg>): nat
    decreases |ms|
  {
    if ms == [] then lastSeq else LastOf(CheckUp(Session(Init, 0, 0, 0, lastSeq), ms[0]).0.lastSeq, ms[1..])
  }

  lemma {:induction false} AcceptedAppend(lastSeq: nat, ms: seq<CsMsg>, m: CsMsg)
    ensures Accepted(lastSeq, ms + [m]) == Accepted(lastSeq, ms) + Accepted(LastOf(lastSeq, ms), [m])
    decreases |ms|
  {
    if ms == [] {
      assert [] + [m] == [m];
    } else {
      AcceptedAppend(CheckUp(Session(Init, 0, 0, 0, lastSeq), ms[0]).0.lastSeq, ms[1..], m);
      assert (ms + [m])[1..] == ms[1..] + [m];
    }
  }

  lemma {:induction false} LastAdvances(lastSeq: nat, ms: seq<CsMsg>)
    requires 0 < lastSeq < TWO_64 && NonZero(ms)
    ensures LastOf(lastSeq, ms) == lastSeq + |Accepted(lastSeq, ms)| < TWO_64
    decreases |ms|
  {
    if ms != [] {
      NonZeroHead(ms);
      LastAdvances(CheckUp(Session(Init, 0, 0, 0, lastSeq), ms[0]).0.lastSeq, ms[1..]);
    }
  }

  // ---------- the state machine ----------

  function SynAckMsg(): CsMsg { CsMsg(MAGIC_CS_V1, 1, SYNACK, AckBody(SECRET_KEY)) }
  function PassportMsg(): CsMsg { CsMsg(MAGIC_CS_V1, 1, PASSPORT, PassportBody(102030)) }
  function StartMsg(): CsMsg { CsMsg(MAGIC_CS_V1, 1, START_APP, StartBody(0)) }

  /** "test secret key". */
  const SECRET_KEY: seq<byte> := [116, 101, 115, 116, 32, 115, 101, 99, 114, 101, 116, 32, 107, 101, 121]

  function DownMsg(sequence: int, data: seq<byte>): CsMsg {
    CsMsg(MAGIC_CS_V1, sequence, DATA_TRANSPARENT, DataBody(data))
  }

  /** The session, the backend position, what was done to the outside, and the code returned. */
  datatype Outcome = Outcome(session: Session, pos: nat, effects: seq<Effect>, ret: int)

  /** SerializeAndSendToFrontEnd, then the next state if that worked. */
  function Answer(s: Session, pos: nat, m: CsMsg, next: State, frontOk: bool): Outcome {
    if frontOk then Outcome(s.(state := next), pos, [ToFront(m, true)], 0)
    else Outcome(s, pos, [ToFront(m, false), DestroyFront], -1)
  }

  function StartSession(s: Session, pos: nat, used: nat, backOk: bool): Outcome {
    var b := Choose(pos, used);
    if b >= used then Outcome(s, b + 1, [], -1)
    else
      var m := SsMsg(SsSyn, 1, s.fd, s.nid, s.sid, []);
      if backOk then Outcome(s.(state := SynAck), b + 1, [ToBack(b, m, true)], 0)
      else Outcome(s, b + 1, [ToBack(b, m, false)], -1)
  }

  function Drive(s: Session, pos: nat, used: nat, frontOk: bool, backOk: bool): Outcome {
    match s.state
    case Init => Answer(s, pos, SynAckMsg(), Auth, frontOk)
    case Auth => Answer(s, pos, PassportMsg(), Syning, frontOk)
    case Syning => StartSession(s, pos, used, backOk)
    case SynAck => Answer(s, pos, StartMsg(), Ok, frontOk)
    case Ok => Outcome(s, pos, [DestroyFront], 0)
  }

  function ForwardUp(s: Session, pos: nat, used: nat, sequence: int, data: seq<byte>, backOk: bool): Outcome {
    var b := Choose(pos, used);
    if b >= used then Outcome(s, b + 1, [], -1)
    else Outcome(s, b + 1, [ToBack(b, SsMsg(SsData, sequence, s.fd, s.nid, s.sid, data), backOk)], if backOk then 0 else -1)
  }

  function ForwardDown(s: Session, pos: nat, sequence: int, data: seq<byte>, frontOk: bool): Outcome {
    if data == [] then Outcome(s, pos, [], -1)
    else Outcome(s, pos, [ToFront(DownMsg(sequence, data), frontOk)], if frontOk then 0 else -1)
  }

  // ---------- at most one choice a message ----------

  /** The backends a handler turned to, whether or not the send worked. */
  function Picks(es: seq<Effect>): seq<nat> {
    if es == [] then []
    else if es[0].ToBack? then [es[0].backend] + Picks(es[1..])
    else Picks(es[1..])
  }

  lemma {:induction false} PicksAdd(a: seq<Effect>, b: seq<Effect>)
    ensures Picks(a + b) == Picks(a) + Picks(b)
    decreases |a|
  {
    if a == [] {
      assert a + b == b;
    } else {
      PicksAdd(a[1..], b);
      assert (a + b)[0] == a[0] && (a + b)[1..] == a[1..] + b;
    }
  }

  /** No backend and the position as it was, or the next backend and the position behind it. */
  ghost predicate OnePick(o: Outcome, pos: nat, used: nat) {
    || (Picks(o.effects) == [] && o.pos == pos)
    || (Picks(o.effects) == [Choose(pos, used)] && o.pos == Choose(pos, used) + 1)
  }

  lemma DrivePicks(s: Session, pos: nat, used: nat, frontOk: bool, backOk: bool)
    requires used > 0
    ensures OnePick(Drive(s, pos, used, frontOk, backOk), pos, used)
    ensures s.state != Syning ==> Picks(Drive(s, pos, used, frontOk, backOk).effects) == []
  {
    var es := Drive(s, pos, used, frontOk, backOk).effects;
    if |es| == 2 {
      PicksAdd([es[0]], [es[1]]);
      PicksOne(es[1]);
      assert es == [es[0]] + [es[1]];
    } else {
      assert es == [es[0]];
    }
    PicksOne(es[0]);
  }

  lemma PicksOne(e: Effect)
    ensures Picks([e]) == if e.ToBack? then [e.backend] else []
  {
    assert [e][1..] == [];
  }

  // ---------- the classes ----------

  /** backends_, backend_used_ and backend_pos_, shared by all sessions. */
  class BackEndSet {
    const backends: array<nat>
    var used: nat
    var pos: nat

    constructor ()
      ensures Valid() && fresh(backends) && used == 0 && pos == 0
    {
      backends := new nat[MAX_BACKENDS];
      used, pos := 0, 0;
    }

    ghost predicate Valid()
      reads this
    {
      backends.Length == MAX_BACKENDS && used <= MAX_BACKENDS && pos <= MAX_BACKENDS
    }

    method AddBackEnd(net: nat) returns (ok: bool)
      requires Valid()
      modifies this`used, backends
      ensures Valid() && ok == (old(used) < MAX_BACKENDS)
      ensures backends[..used] == if ok then old(backends[..used]) + [net] else old(backends[..used])
    {
      if used >= MAX_BACKENDS {
        return false;
      }
      backends[used] := net;
      used := used + 1;
      ok := true;
    }

    /** The next backend, or None where the array holds no connection yet. */
    method Next() returns (back: Option<nat>)
      requires Valid()
      modifies this`pos
      ensures Valid() && pos == Choose(old(pos), used) + 1
      ensures back == if Choose(old(pos), used) < used then Some(backends[Choose(old(pos), used)]) else None
    {
      if pos >= used {
        pos := 0;
      }
      back := if pos < used then Some(backends[pos]) else None;
      pos := pos + 1;
    }
  }

  /** The framework as a session sees it: a record of what it was asked to do. */
  class FrameStub {
    var effects: seq<Effect>

    constructor ()
      ensures effects == []
    {
      effects := [];
    }

    method Record(e: Effect)
      modifies this
      ensures effects == old(effects) + [e]
    {
      effects := effects + [e];
    }
  }

  class ConnectorSession {
    var state: State
    const fd: nat
    const nid: nat
    var sid: nat
    var lastSeq: nat
    const backEnds: BackEndSet
    const frame: FrameStub

    constructor (fd: nat, nid: nat, backEnds: BackEndSet, frame: FrameStub)
      ensures View() == Fresh(fd, nid) && this.backEnds == backEnds && this.frame == frame
    {
      this.fd, this.nid, this.backEnds, this.frame := fd, nid, backEnds, frame;
      state, sid, lastSeq := Init, NO_SID, 0;
    }

    ghost function View(): Session
      reads this
    {
      Session(state, fd, nid, sid, lastSeq)
    }

    /** Backend numbers stand for the connections themselves. */
    ghost predicate Ready()
      reads backEnds, backEnds.backends
    {
      backEnds.Valid() && forall i :: 0 <= i < backEnds.used ==> backEnds.backends[i] == i
    }

    /** The new state of session, position and record is the one an outcome describes. */
    twostate predicate Becomes(o: Outcome, ret: int)
      reads this, backEnds, backEnds.backends, frame
    {
      && View() == o.session && backEnds.pos == o.pos && ret == o.ret
      && frame.effects == old(frame.effects) + o.effects
      && Ready() && backEnds.used == old(backEnds.used)
    }

    method CheckUpSideMessage(m: CsMsg) returns (ret: int)
      modifies this
      ensures (View(), ret) == CheckUp(old(View()), m)
    {
      if m.magic != MAGIC_CS_V1 {
        return -1;
      }
      if lastSeq != 0 && U64(m.sequence) != NextSeq(lastSeq) {
        return -1;
      }
      lastSeq := U64(m.sequence);
      ret := 0;
    }

    method SerializeAndSendToFrontEnd(m: CsMsg, frontOk: bool) returns (ret: int)
      modifies frame
      ensures ret == (if frontOk then 0 else -1)
      ensures frame.effects == old(frame.effects) + if frontOk then [ToFront(m, true)] else [ToFront(m, false), DestroyFront]
    {
      frame.Record(ToFront(m, frontOk));
      if !frontOk {
        frame.Record(DestroyFront);
        return -1;
      }
      ret := 0;
    }

    method HandleKeyMaking(frontOk: bool) returns (ret: int)
      requires Ready()
      modifies this, frame
      ensures Becomes(Answer(old(View()), old(backEnds.pos), SynAckMsg(), Auth, frontOk), ret)
    {
      ret := SerializeAndSendToFrontEnd(SynAckMsg(), frontOk);
      if ret != 0 {
        return -1;
      }
      state := Auth;
    }

    method HandleAuthRequest(frontOk: bool) returns (ret: int)
      requires Ready()
      modifies this, frame
      ensures Becomes(Answer(old(View()), old(backEnds.pos), PassportMsg(), Syning, frontOk), ret)
    {
      ret := SerializeAndSendToFrontEnd(PassportMsg(), frontOk);
      if ret != 0 {
        return -1;
      }
      state := Syning;
    }

    method HandShakeStartSession(backOk: bool) returns (ret: int)
      requires Ready()
      modifies this, frame, backEnds`pos
      ensures Becomes(StartSession(old(View()), old(backEnds.pos), backEnds.used, backOk), ret)
    {
      var back := backEnds.Next();
      if back.None? {
        return -1;
      }
      frame.Record(ToBack(back.value, SsMsg(SsSyn, 1, fd, nid, sid, []), backOk));
      if !backOk {
        return -1;
      }
      state := SynAck;
      ret := 0;
    }

    method HandShakeOnStartAcked(frontOk: bool) returns (ret: int)
      requires Ready()
      modifies this, frame
      ensures Becomes(Answer(old(View()), old(backEnds.pos), StartMsg(), Ok, frontOk), ret)
    {
      ret := SerializeAndSendToFrontEnd(StartMsg(), frontOk);
      if ret != 0 {
        return -1;
      }
      state := Ok;
    }

    method DriveStateMachine(frontOk: bool, backOk: bool) returns (ret: int)
      requires Ready()
      modifies this, frame, backEnds`pos
      ensures Becomes(Drive(old(View()), old(backEnds.pos), backEnds.used, frontOk, backOk), ret)
    {
      match state {
        case Init => ret := HandleKeyMaking(frontOk);
        case Auth => ret := HandleAuthRequest(frontOk);
        case Syning => ret := HandShakeStartSession(backOk);
        case SynAck => ret := HandShakeOnStartAcked(frontOk);
        case Ok =>
          frame.Record(DestroyFront);
          ret := 0;
      }
    }

    method ForwardUpSideMessage(sequence: int, data: seq<byte>, backOk: bool) returns (ret: int)
      requires Ready()
      modifies frame, backEnds`pos
      ensures Becomes(ForwardUp(old(View()), old(backEnds.pos), backEnds.used, sequence, data, backOk), ret)
    {
      var back := backEnds.Next();
      if back.None? {
        return -1;
      }
      frame.Record(ToBack(back.value, SsMsg(SsData, sequence, fd, nid, sid, data), backOk));
      ret := if backOk then 0 else -1;
    }

    method ForwardDownSideMessage(sequence: int, data: seq<byte>, frontOk: bool) returns (ret: int)
      requires Ready()
      modifies frame
      ensures Becomes(ForwardDown(old(View()), old(backEnds.pos), sequence, data, frontOk), ret)
    {
      if |data| == 0 {
        return -1;
      }
      frame.Record(ToFront(DownMsg(sequence, data), frontOk));
      ret := if frontOk then 0 else -1;
    }
  }
}
