/** The client's half of the connector protocol: the session state machine that Update drives,
    PushMessage, PeekMessage, PopMessage, Resume and Terminate.  The socket under it is seen message
    by message: a send buffer, flushed only by the send that follows a push, the messages wholly
    received, and the socket's state.  What the operating system does on a call is a parameter. */
module ClientProtocol {
  import opened Bytes
  import opened ClientMessages
  import opened SocketBuffer

  /** Both of these are -1 in the source, and so is its "wrong or error body". */
  const NO_MORE_PKG := -1
  const FAILED := -1
  const CONNECT_FAILED := -101

  datatype State = Inited | TcpSyning | KeySyning | Authing | Ready | Done | Fini

  datatype Client = Client(state: State, seqno: nat, appid: seq<byte>, openid: seq<byte>, token: seq<byte>,
                           skey: seq<byte>, passport: int, down: CsMsg,
                           sock: SocketState, unsent: seq<CsMsg>, recvq: seq<CsMsg>)

  datatype Event = HandShakeSucceed | HandShakeFailed | ServerClose | Incoming

  datatype CheckOut = IsEstablished | Pending | Refused

  /** What recv() did: Got are the messages it completed, perhaps none. */
  datatype RecvOut = NothingYet | RecvFailure | PeerGone | Got(ms: seq<CsMsg>)

  /** What send() did: Moved says how many messages of the buffer are now wholly on the wire; when
      these are not all, some octets of the next may be on it too.  SentNothing is a send() that
      returns 0. */
  datatype SendOut = SendBlocks | SentNothing | SendFailure | Moved(n: nat)

  /** What the operating system does during one call, and push, the code PushvToSendQ returns. */
  datatype Env = Env(dials: bool, check: CheckOut, recv: RecvOut, push: int, send: SendOut)

  // ---------- sending ----------

  /** TcpSocketUtil::Send at the level of messages: the client after it, what went onto the wire,
      and the code. */
  datatype SendResult = SendResult(client: Client, wire: seq<CsMsg>, code: int)

  function Flush(c: Client, o: SendOut): SendResult {
    if c.sock == NetAssertFail then SendResult(c, [], ASSERT_FAILED)
    else if c.sock == NetSendFailed then SendResult(c, [], NORMAL)
    else if c.sock !in {NetConnected, NetRecvFailed, NetPeerClosed} then SendResult(c, [], NOT_CONNECTED)
    else if c.unsent == [] then SendResult(c, [], NORMAL)
    else
      match o
      case SendBlocks => SendResult(c, [], SEND_UNCOMPLETED)
      case SentNothing => SendResult(c, [], NORMAL)
      case SendFailure => SendResult(c.(sock := NetSendFailed), [], SEND_FAILED)
      case Moved(n) =>
        var k := if n < |c.unsent| then n else |c.unsent|;
        SendResult(c.(unsent := c.unsent[k..]), c.unsent[..k], if k < |c.unsent| then SEND_UNCOMPLETED else NORMAL)
  }

  /** SerializeAndSendToPeer: a message the buffer took stays queued whatever the send does. */
  function SendToPeer(c: Client, env: Env, m: CsMsg): SendResult {
    if env.push != NORMAL then SendResult(c, [], env.push)
    else
      var r := Flush(c.(unsent := c.unsent + [m]), env.send);
      r.(code := if r.code != NORMAL && r.code != SEND_UNCOMPLETED then r.code else NORMAL)
  }

  function Queued(env: Env, m: CsMsg): seq<CsMsg> {
    if env.push == NORMAL then [m] else []
  }

  function SynMsg(c: Client): CsMsg {
    CsMsg(MAGIC_CS_V1, c.seqno, SYN, SynBody(c.appid, c.openid))
  }

  function AuthMsg(c: Client): CsMsg {
    CsMsg(MAGIC_CS_V1, c.seqno, AUTHENTICATION, AuthBody(c.token))
  }

  function DataMsg(c: Client, data: seq<byte>): CsMsg {
    CsMsg(MAGIC_CS_V1, c.seqno, DATA_TRANSPARENT, DataBody(data))
  }

  /** HandShake_SYN and HandShake_AUTH: the sequence number is used up whatever happens. */
  function SendStep(c: Client, env: Env, m: CsMsg, next: State): SendResult {
    var r := SendToPeer(c.(seqno := c.seqno + 1), env, m);
    if r.code == NORMAL then r.(client := r.client.(state := next)) else r
  }

  // ---------- receiving ----------

  /** TcpSocketUtil::Recv: the socket after it, what came in whole, and the code. */
  datatype RecvResult = RecvResult(sock: SocketState, ms: seq<CsMsg>, code: int)

  function Receive(c: Client, o: RecvOut): RecvResult {
    if c.sock == NetAssertFail then RecvResult(c.sock, [], ASSERT_FAILED)
    else if c.sock in {NetRecvFailed, NetPeerClosed} then RecvResult(c.sock, [], NORMAL)
    else if c.sock !in {NetConnected, NetSendFailed} then RecvResult(c.sock, [], NOT_CONNECTED)
    else
      match o
      case NothingYet => RecvResult(c.sock, [], NORMAL)
      case RecvFailure => RecvResult(NetRecvFailed, [], RECV_FAILED)
      case PeerGone => RecvResult(NetPeerClosed, [], PEER_CLOSED)
      case Got(ms) => RecvResult(c.sock, ms, NORMAL)
  }

  /** All that is in the receive buffer after a Recv. */
  function Received(c: Client, env: Env): seq<CsMsg> {
    c.recvq + Receive(c, env.recv).ms
  }

  function AfterRecv(c: Client, env: Env): Client {
    c.(sock := Receive(c, env.recv).sock, recvq := Received(c, env))
  }

  /** TryToRecvFromPeerAndParse: the client after it, and its code. */
  function TryRecv(c: Client, env: Env): (r: (Client, int)) {
    var t := AfterRecv(c, env);
    if Receive(c, env.recv).code != NORMAL then (t, Receive(c, env.recv).code)
    else if t.recvq == [] then (t, NO_MORE_PKG)
    else (t.(recvq := t.recvq[1..], down := t.recvq[0]), if t.recvq[0].bodyid == ERROR then FAILED else 0)
  }

  function TryAck(c: Client, env: Env): (r: (Client, int)) {
    var (t, ret) := TryRecv(c, env);
    if ret != 0 then (t, ret)
    else if t.down.bodyid != SYNACK then (t, FAILED)
    else (t.(skey := if t.down.body.AckBody? then t.down.body.secretkey else []), 0)
  }

  function TryReady(c: Client, env: Env): (r: (Client, int)) {
    var (t, ret) := TryRecv(c, env);
    if ret != 0 then (t, if ret != NO_MORE_PKG then ret else 0)
    else if t.down.bodyid != PASSPORT then (t, FAILED)
    else (t.(passport := if t.down.body.PassportBody? then t.down.body.passport else 0, state := Ready), 0)
  }

  function TryDone(c: Client, env: Env): (r: (Client, int)) {
    var (t, ret) := TryRecv(c, env);
    if ret != 0 then (t, if ret != NO_MORE_PKG then ret else 0)
    else if t.down.bodyid != START_APP then (t, FAILED)
    else (t.(state := Done), 0)
  }

  // ---------- connecting ----------

  function Dial(c: Client, env: Env): (r: (Client, int)) {
    if env.dials then (c.(sock := NetConnecting, state := TcpSyning), 0) else (c, FAILED)
  }

  /** TcpSocketUtil::Close, which empties both buffers. */
  function CloseSocket(c: Client): Client {
    c.(sock := NetInited, unsent := [], recvq := [])
  }

  /** No file descriptor: not dialled since it was made or closed. */
  predicate Closed(sock: SocketState) {
    sock in {NetInited, NetAssertFail}
  }

  /** CheckNonBlock. */
  function Check(c: Client, env: Env): (r: (Client, int)) {
    if Closed(c.sock) then (c.(sock := NetAssertFail), ASSERT_FAILED)
    else
      match env.check
      case IsEstablished => (c.(sock := NetConnected), NORMAL)
      case Pending => (c, NORMAL)
      case Refused => (CloseSocket(c), CONNECT_FAILED)
  }

  // ---------- Update ----------

  /** told is the flag inside Update that lives as long as the process and is shared by all its
      clients.  queued is what the send buffer took, wire what went out. */
  datatype Updated = Updated(client: Client, told: bool, ret: int, events: seq<Event>, queued: seq<CsMsg>, wire: seq<CsMsg>)

  /** The state machine before its closing check of ret; busy is what Update returns if all is
      well. */
  datatype Driven =
    Driven(client: Client, told: bool, ret: int, busy: int, events: seq<Event>, queued: seq<CsMsg>, wire: seq<CsMsg>)

  function Idle(c: Client, told: bool, ret: int): Driven {
    Driven(c, told, ret, 0, [], [], [])
  }

  function Sends(r: SendResult, told: bool, queued: seq<CsMsg>): Driven {
    Driven(r.client, told, r.code, 1, [], queued, r.wire)
  }

  function Drive(c: Client, told: bool, env: Env): Driven
    requires c.state != Fini
  {
    match c.state
    case Inited => Idle(Dial(c, env).0, told, Dial(c, env).1)
    case TcpSyning =>
      var (t, ret) := Check(c, env);
      if ret == NORMAL && t.sock == NetConnected then Sends(SendStep(t, env, SynMsg(t), KeySyning), told, Queued(env, SynMsg(t)))
      else Idle(t, told, ret)
    case KeySyning =>
      var (t, ret) := TryAck(c, env);
      if ret == 0 then Sends(SendStep(t, env, AuthMsg(t), Authing), told, Queued(env, AuthMsg(t)))
      else Idle(t, told, if ret == NO_MORE_PKG then 0 else ret)
    case Authing => Idle(TryReady(c, env).0, told, TryReady(c, env).1)
    case Ready => Idle(TryDone(c, env).0, told, TryDone(c, env).1)
    case Done =>
      if !told then Driven(c, true, 0, 1, [HandShakeSucceed], [], [])
      else
        var t, ret := AfterRecv(c, env), Receive(c, env.recv).code;
        if ret == NORMAL && t.recvq != [] then Driven(t, told, ret, 1, [Incoming], [], []) else Idle(t, told, ret)
  }

  function Step(c: Client, told: bool, env: Env): Updated {
    if c.state == Fini then Updated(c, told, FAILED, [], [], [])
    else
      var d := Drive(c, told, env);
      if d.ret != NORMAL && d.client.state != Done then
        Updated(d.client, d.told, FAILED, d.events + [HandShakeFailed], d.queued, d.wire)
      else if d.ret == PEER_CLOSED then
        Updated(d.client, d.told, FAILED, d.events + [ServerClose], d.queued, d.wire)
      else Updated(d.client, d.told, d.busy, d.events, d.queued, d.wire)
  }

  /** Whether Update calls Recv at all. */
  predicate Polls(c: Client, told: bool) {
    c.state in {KeySyning, Authing, Ready} || (c.state == Done && told)
  }

  /** What an Update takes in. */
  function Arrives(c: Client, told: bool, env: Env): seq<CsMsg> {
    if Polls(c, told) then Receive(c, env.recv).ms else []
  }

  // ---------- the rest of the interface ----------

  /** The client, the code, what the buffer took and what went out. */
  function Push(c: Client, data: seq<byte>, env: Env): (r: (Client, int, seq<CsMsg>, seq<CsMsg>)) {
    if data == [] then (c, FAILED, [], [])
    else
      var m := DataMsg(c, data);
      var r := SendToPeer(c.(seqno := c.seqno + 1), env, m);
      (r.client, if r.code == NORMAL then 0 else FAILED, Queued(env, m), r.wire)
  }

  function Peek(c: Client): (r: (Client, int, Option<seq<byte>>)) {
    if c.recvq == [] then (c, NO_MORE_PKG, None)
    else
      var t := c.(down := c.recvq[0]);
      if t.down.bodyid != DATA_TRANSPARENT then (t, FAILED, None)
      else (t, 0, Some(if t.down.body.DataBody? then t.down.body.data else []))
  }

  function Pop(c: Client): (r: (Client, int)) {
    (c.(recvq := if c.recvq == [] then [] else c.recvq[1..]),
     if c.down.bodyid != DATA_TRANSPARENT then FAILED else 0)
  }

  /** Resume drops what the old connection left in the buffers, sent or not, but not the sequence
      number. */
  function Restart(c: Client, env: Env): (r: (Client, int)) {
    Dial(CloseSocket(c), env)
  }

  function Terminated(c: Client): Client {
    CloseSocket(c).(state := Fini)
  }

  // ---------- what the code's two meanings of -1 do ----------

  /** While it waits for the key, the client never notices a message that is not the SYNACK it
      expects, not even an error: it is taken out of the buffer and the wait goes on. */
  lemma WrongAnswersAreSwallowed(c: Client, told: bool, env: Env)
    requires c.state == KeySyning && Receive(c, env.recv).code == NORMAL && Received(c, env) != []
    requires Received(c, env)[0].bodyid != SYNACK
    ensures var u := Step(c, told, env);
      && u.ret == 0 && u.events == [] && u.queued == [] && u.client.state == KeySyning
      && u.client.recvq == Received(c, env)[1..]
  {
  }

  /** Exactly when an Update in the handshake fails.  The wrong answer is noticed in AUTHING and
      READY, an error message never is. */
  lemma WhenTheHandshakeFails(c: Client, told: bool, env: Env)
    requires c.state in {KeySyning, Authing, Ready}
    ensures var q, code := Received(c, env), Receive(c, env.recv).code;
      var expected := if c.state == KeySyning then SYNACK else if c.state == Authing then PASSPORT else START_APP;
      var t := TryAck(c, env).0;
      Step(c, told, env).ret < 0 <==>
        || code != NORMAL
        || (q != [] && q[0].bodyid !in {expected, ERROR} && c.state != KeySyning)
        || (q != [] && q[0].bodyid == expected && c.state == KeySyning
            && SendStep(t, env, AuthMsg(t), Authing).code != NORMAL)
  {
  }

  // ---------- the send buffer ----------

  /** What a call queues joins what was unsent, and what goes out is the front of it. */
  lemma QueueInOrder(c: Client, env: Env, m: CsMsg)
    ensures var r := SendToPeer(c, env, m); c.unsent + Queued(env, m) == r.wire + r.client.unsent
  {
    assert c.unsent + [] == c.unsent;
  }

  /** HandShake_SYN and HandShake_AUTH on a connected socket: what they change, and that all is
      still well with the socket when they succeed. */
  lemma SendStepQueues(t: Client, env: Env, m: CsMsg, next: State)
    requires t.sock == NetConnected
    ensures var r := SendStep(t, env, m, next);
      && t.unsent + Queued(env, m) == r.wire + r.client.unsent
      && r.client == t.(seqno := t.seqno + 1, sock := r.client.sock, unsent := r.client.unsent,
                        state := if r.code == NORMAL then next else t.state)
      && (r.code == NORMAL ==> Queued(env, m) == [m] && r.client.sock == NetConnected)
  {
    QueueInOrder(t.(seqno := t.seqno + 1), env, m);
  }

  /** An Update that has nothing to send never flushes: whatever the send that followed the SYN
      left in the buffer stays there until the next push, and in the handshake that push waits for
      an answer. */
  lemma UpdateNeverFlushes(c: Client, told: bool, env: Env)
    requires c.state in {KeySyning, Authing, Ready, Done} && Received(c, env) == []
    ensures var u := Step(c, told, env);
      u.wire == [] && u.queued == [] && u.client.unsent == c.unsent && u.client.state == c.state
  {
  }

  function PushAll(c: Client, pushes: seq<(seq<byte>, Env)>): (Client, seq<CsMsg>)
    decreases |pushes|
  {
    if pushes == [] then (c, [])
    else
      var p := Push(c, pushes[0].0, pushes[0].1);
      var (rest, wire) := PushAll(p.0, pushes[1..]);
      (rest, p.3 + wire)
  }

  /** Once a send has failed pushes are accepted as before, and none of them goes out. */
  lemma {:induction false} FailedSendIsNotNoticed(c: Client, pushes: seq<(seq<byte>, Env)>)
    requires c.sock == NetSendFailed
    ensures var (r, wire) := PushAll(c, pushes);
      wire == [] && c.unsent <= r.unsent && r.sock == NetSendFailed
    ensures pushes != [] && pushes[0].0 != [] ==> (Push(c, pushes[0].0, pushes[0].1).1 == 0 <==> pushes[0].1.push == NORMAL)
    decreases |pushes|
  {
    if pushes != [] {
      FailedSendIsNotNoticed(Push(c, pushes[0].0, pushes[0].1).0, pushes[1..]);
    }
  }

  // ---------- the socket ----------

  /** Only these can send: connected, or with the other direction gone. */
  predicate CanSend(sock: SocketState) {
    sock in {NetConnected, NetRecvFailed, NetPeerClosed}
  }

  /** A socket is failed for sending exactly by a send() that fails with something to send, and
      what that and the other outcomes are reported as. */
  lemma SendReports(c: Client, o: SendOut)
    ensures var r, tries := Flush(c, o), CanSend(c.sock) && c.unsent != [];
      && r.client == c.(sock := if tries && o == SendFailure then NetSendFailed else c.sock, unsent := r.client.unsent)
      && (r.code == SEND_FAILED <==> tries && o == SendFailure)
      && (r.code == SEND_UNCOMPLETED <==> tries && (o == SendBlocks || (o.Moved? && o.n < |c.unsent|)))
      && (r.code == ASSERT_FAILED <==> c.sock == NetAssertFail)
      && (r.code == NOT_CONNECTED <==> c.sock in {NetInited, NetConnecting})
      && (r.code == NORMAL || r.code in {SEND_FAILED, SEND_UNCOMPLETED, ASSERT_FAILED, NOT_CONNECTED})
      && |r.wire| == (if tries && o.Moved? then if o.n < |c.unsent| then o.n else |c.unsent| else 0)
  {
  }

  /** The same for receiving. */
  lemma RecvReports(c: Client, o: RecvOut)
    ensures var r, tries := Receive(c, o), c.sock in {NetConnected, NetSendFailed};
      && r.sock == (if tries && o == RecvFailure then NetRecvFailed else if tries && o == PeerGone then NetPeerClosed else c.sock)
      && r.ms == (if tries && o.Got? then o.ms else [])
      && (r.code == RECV_FAILED <==> tries && o == RecvFailure)
      && (r.code == PEER_CLOSED <==> tries && o == PeerGone)
      && (r.code == ASSERT_FAILED <==> c.sock == NetAssertFail)
      && (r.code == NOT_CONNECTED <==> c.sock in {NetInited, NetConnecting})
      && (r.code == NORMAL || r.code in {RECV_FAILED, PEER_CLOSED, ASSERT_FAILED, NOT_CONNECTED})
  {
  }

  /** A push is reported as done exactly for data the buffer takes, on a socket whose send does not
      fail then and there. */
  lemma PushReports(c: Client, data: seq<byte>, env: Env)
    ensures var (d, code, queued, wire) := Push(c, data, env);
      && (code == 0 <==> data != [] && env.push == NORMAL && c.sock !in {NetAssertFail, NetInited, NetConnecting}
                         && !(CanSend(c.sock) && env.send == SendFailure))
      && (code != 0 ==> code == FAILED)
      && queued == (if data != [] && env.push == NORMAL then [DataMsg(c, data)] else [])
  {
  }

  // ---------- what an Update tells and takes ----------

  lemma DriveEvents(c: Client, told: bool, env: Env)
    requires c.state != Fini
    ensures var d := Drive(c, told, env);
      && d.busy >= 0 && (d.client.state == Done && c.state != Done ==> d.ret == NORMAL) && (c.state == Done ==> d.client.state == Done)
      && (c.state == Done ==> d.ret == if told then Receive(c, env.recv).code else NORMAL)
      && d.events == if c.state != Done then []
                     else if !told then [HandShakeSucceed]
                     else if Receive(c, env.recv).code == NORMAL && Received(c, env) != [] then [Incoming]
                     else []
  {
  }

  /** What the listener hears of an Update, event by event. */
  lemma EventsExactly(c: Client, told: bool, env: Env)
    ensures var u := Step(c, told, env);
      && (HandShakeFailed in u.events <==> c.state !in {Done, Fini} && u.ret < 0)
      && (ServerClose in u.events <==> c.state == Done && told && Receive(c, env.recv).code == PEER_CLOSED)
      && (Incoming in u.events <==>
            c.state == Done && told && Receive(c, env.recv).code == NORMAL && Received(c, env) != [])
      && |u.events| <= 1
  {
    if c.state != Fini {
      DriveEvents(c, told, env);
      StepEvents(c, told, env, Drive(c, told, env));
    }
  }

  lemma StepEvents(c: Client, told: bool, env: Env, d: Driven)
    requires c.state != Fini && d == Drive(c, told, env) && d.busy >= 0
    ensures var u := Step(c, told, env);
      && (u.ret < 0 <==> d.ret != NORMAL && (d.client.state != Done || d.ret == PEER_CLOSED))
      && u.events == d.events + if d.ret == NORMAL then [] else if d.client.state != Done then [HandShakeFailed]
                                else if d.ret == PEER_CLOSED then [ServerClose] else []
  {
    assert d.events + [] == d.events;
  }

  /** An answer is at hand: it came in without trouble and is the kind that is waited for. */
  predicate Answered(c: Client, env: Env, kind: int) {
    Receive(c, env.recv).code == NORMAL && Received(c, env) != [] && Received(c, env)[0].bodyid == kind
  }

  /** What an Update that does not fail returns: 1 when it sent a handshake message or had
      something to tell, 0 when it only waited or took an answer. */
  lemma BusyExactly(c: Client, told: bool, env: Env)
    requires Step(c, told, env).ret >= 0
    ensures Step(c, told, env).ret == 1 <==>
        || (c.state == TcpSyning && Check(c, env).0.sock == NetConnected)
        || (c.state == KeySyning && Answered(c, env, SYNACK))
        || (c.state == Done && (!told || (Receive(c, env.recv).code == NORMAL && Received(c, env) != [])))
    ensures Step(c, told, env).ret in {0, 1}
  {
  }

  /** The key is taken from the SYNACK it comes in, and nothing else makes the client go on. */
  lemma KeyIsTaken(c: Client, told: bool, env: Env)
    requires c.state == KeySyning
    ensures var u, q := Step(c, told, env).client, Received(c, env);
      && u.skey == (if Answered(c, env, SYNACK) then if q[0].body.AckBody? then q[0].body.secretkey else [] else c.skey)
      && u.passport == c.passport && (u.state == Authing ==> Answered(c, env, SYNACK)) && u.state in {KeySyning, Authing}
  {
    var (t, ret) := TryAck(c, env);
    if ret == 0 {
      assert SendStep(t, env, AuthMsg(t), Authing).client.skey == t.skey;
    }
  }

  /** The passport is taken from the PASSPORT it comes in, with which the client goes on. */
  lemma PassportIsTaken(c: Client, told: bool, env: Env)
    requires c.state == Authing
    ensures var u, q := Step(c, told, env).client, Received(c, env);
      && u.passport == (if Answered(c, env, PASSPORT) then if q[0].body.PassportBody? then q[0].body.passport else 0
                        else c.passport)
      && u.skey == c.skey && u.state == (if Answered(c, env, PASSPORT) then Ready else Authing)
  {
  }

  /** And START_APP makes it DONE. */
  lemma StartIsTaken(c: Client, told: bool, env: Env)
    requires c.state == Ready
    ensures var u := Step(c, told, env).client;
      u.skey == c.skey && u.passport == c.passport && u.state == if Answered(c, env, START_APP) then Done else Ready
  {
  }

  // ---------- numbers ----------

  /** What an application may do with a client, in any order. */
  datatype Call = Updating(told: bool, updateEnv: Env) | Pushing(data: seq<byte>, pushEnv: Env) | Resuming(dialEnv: Env)

  /** The client after one call, and what its send buffer took. */
  function Do(c: Client, call: Call): (Client, seq<CsMsg>) {
    match call
    case Updating(told, env) => (Step(c, told, env).client, Step(c, told, env).queued)
    case Pushing(data, env) => (Push(c, data, env).0, Push(c, data, env).2)
    case Resuming(env) => (Restart(c, env).0, [])
  }

  function DoAll(c: Client, calls: seq<Call>): (Client, seq<CsMsg>)
    decreases |calls|
  {
    if calls == [] then (c, [])
    else
      var (d, queued) := Do(c, calls[0]);
      var (rest, more) := DoAll(d, calls[1..]);
      (rest, queued + more)
  }

  ghost predicate Increasing(ms: seq<CsMsg>, from: int, to: int) {
    && (forall i :: 0 <= i < |ms| ==> from <= ms[i].sequence < to)
    && (forall i, j :: 0 <= i < j < |ms| ==> ms[i].sequence < ms[j].sequence)
  }

  lemma SendNumbers(t: Client, env: Env, m: CsMsg, next: State)
    requires m.sequence == t.seqno
    ensures SendStep(t, env, m, next).client.seqno == t.seqno + 1 && Increasing(Queued(env, m), t.seqno, t.seqno + 1)
  {
  }

  lemma UpdateNumbers(c: Client, told: bool, env: Env)
    ensures var u := Step(c, told, env);
      |u.queued| <= 1 && c.seqno <= u.client.seqno && Increasing(u.queued, c.seqno, u.client.seqno)
  {
    match c.state
    case TcpSyning =>
      var t := Check(c, env).0;
      SendNumbers(t, env, SynMsg(t), KeySyning);
    case KeySyning =>
      var t := TryAck(c, env).0;
      SendNumbers(t, env, AuthMsg(t), Authing);
    case _ =>
  }

  lemma OneCallNumbers(c: Client, call: Call)
    ensures var (d, queued) := Do(c, call);
      && |queued| <= 1 && c.seqno <= d.seqno && Increasing(queued, c.seqno, d.seqno)
      && (call.Pushing? && call.data != [] ==> d.seqno == c.seqno + 1)
  {
    if call.Updating? {
      UpdateNumbers(c, call.told, call.updateEnv);
    }
  }

  /** Whatever is called, resumes included, a client never numbers two messages alike: those its
      buffer takes carry ever larger numbers. */
  lemma {:induction false} NumbersNeverRepeat(c: Client, calls: seq<Call>)
    ensures var (d, queued) := DoAll(c, calls); c.seqno <= d.seqno && Increasing(queued, c.seqno, d.seqno)
    decreases |calls|
  {
    if calls != [] {
      OneCallNumbers(c, calls[0]);
      NumbersNeverRepeat(Do(c, calls[0]).0, calls[1..]);
    }
  }

  /** A resumed client starts over: its buffers are empty, and it connects. */
  lemma ResumeStartsOver(c: Client, env: Env)
    ensures var (d, code) := Restart(c, env);
      && d.recvq == [] && d.unsent == [] && d.seqno == c.seqno && (code == 0 <==> env.dials)
      && d.state == (if env.dials then TcpSyning else c.state) && d.sock == (if env.dials then NetConnecting else NetInited)
  {
  }

  /** After Terminate no Update does anything, and no push sends anything. */
  lemma TerminatedIsSilent(c: Client, told: bool, env: Env, data: seq<byte>)
    ensures var t := Terminated(c);
      && Step(t, told, env) == Updated(t, told, FAILED, [], [], [])
      && Push(t, data, env).1 == FAILED && Push(t, data, env).3 == [] && Peek(t).2 == None
  {
  }

  // ---------- success is reported once a process ----------

  function UpdateAll(clients: seq<Client>, told: bool, calls: seq<(nat, Env)>): (seq<Client>, seq<Event>)
    decreases |calls|
  {
    if calls == [] then (clients, [])
    else if calls[0].0 >= |clients| then UpdateAll(clients, told, calls[1..])
    else
      var u := Step(clients[calls[0].0], told, calls[0].1);
      var (rest, events) := UpdateAll(clients[calls[0].0 := u.client], u.told, calls[1..]);
      (rest, u.events + events)
  }

  function Successes(events: seq<Event>): nat {
    if events == [] then 0 else (if events[0] == HandShakeSucceed then 1 else 0) + Successes(events[1..])
  }

  lemma {:induction false} SuccessesAdd(a: seq<Event>, b: seq<Event>)
    ensures Successes(a + b) == Successes(a) + Successes(b)
    decreases |a|
  {
    if a == [] {
      assert a + b == b;
    } else {
      SuccessesAdd(a[1..], b);
      assert (a + b)[1..] == a[1..] + b;
    }
  }

  /** Because the flag belongs to the process, all its clients together, resumed or not, report
      a finished handshake at most once: precisely when the first of them is updated in DONE. */
  lemma {:induction false} SuccessIsReportedOnce(clients: seq<Client>, told: bool, calls: seq<(nat, Env)>)
    ensures Successes(UpdateAll(clients, told, calls).1) <= if told then 0 else 1
    decreases |calls|
  {
    if calls != [] {
      if calls[0].0 >= |clients| {
        SuccessIsReportedOnce(clients, told, calls[1..]);
      } else {
        var u := Step(clients[calls[0].0], told, calls[0].1);
        SuccessIsReportedOnce(clients[calls[0].0 := u.client], u.told, calls[1..]);
        SuccessesAdd(u.events, UpdateAll(clients[calls[0].0 := u.client], u.told, calls[1..]).1);
        SuccessOf(clients[calls[0].0], told, calls[0].1);
      }
    }
  }

  lemma SuccessOf(c: Client, told: bool, env: Env)
    ensures var u := Step(c, told, env);
      && Successes(u.events) == (if c.state == Done && !told then 1 else 0)
      && u.told == (told || c.state == Done)
  {
    var d := if c.state == Fini then Idle(c, told, 0) else Drive(c, told, env);
    SuccessesAdd(d.events, [HandShakeFailed]);
    SuccessesAdd(d.events, [ServerClose]);
    assert Successes([HandShakeSucceed]) == 1 && Successes([HandShakeFailed]) == 0 && Successes([ServerClose]) == 0;
    assert Successes([Incoming]) == 0;
  }

  // ---------- the class ----------

  /** The process-wide flag inside Update. */
  class ProcessFlag {
    var handshakeDone: bool

    constructor ()
      ensures !handshakeDone
    {
      handshakeDone := false;
    }
  }

  class ConnectorClientProtocolImp {
    const appid: seq<byte>
    const openid: seq<byte>
    const token: seq<byte>
    const process: ProcessFlag
    var sessionState: State
    var seqno: nat
    var encryptSkey: seq<byte>
    var passport: int
    var downMsg: CsMsg
    // the socket
    var socketState: SocketState
    var unsent: seq<CsMsg>
    var recvq: seq<CsMsg>
    /** Messages the send buffer has taken, and messages wholly sent, since the buffer was last
        emptied. */
    ghost var queued: seq<CsMsg>
    ghost var wire: seq<CsMsg>
    /** What the listener has been told. */
    var events: seq<Event>

    constructor (appid: seq<byte>, openid: seq<byte>, token: seq<byte>, process: ProcessFlag, blank: CsMsg)
      ensures View() == Client(Inited, 1, appid, openid, token, [], 0, blank, NetInited, [], [])
      ensures Valid() && this.process == process && queued == [] && events == []
    {
      this.appid, this.openid, this.token, this.process := appid, openid, token, process;
      sessionState, seqno, encryptSkey, passport, downMsg := Inited, 1, [], 0, blank;
      socketState, unsent, recvq, queued, wire, events := NetInited, [], [], [], [], [];
    }

    ghost function View(): Client
      reads this
    {
      Client(sessionState, seqno, appid, openid, token, encryptSkey, passport, downMsg, socketState, unsent, recvq)
    }

    /** The send buffer is a queue. */
    ghost predicate Valid()
      reads this
    {
      wire + unsent == queued
    }

    /** TcpSocketUtil::Send. */
    method SocketSend(o: SendOut) returns (ret: int)
      requires Valid()
      modifies this`socketState, this`unsent, this`wire
      ensures Valid()
      ensures var r := Flush(old(View()), o); View() == r.client && wire == old(wire) + r.wire && ret == r.code
    {
      assert wire + [] == wire;
      if socketState == NetAssertFail {
        return ASSERT_FAILED;
      }
      if socketState == NetSendFailed {
        return NORMAL;
      } else if socketState != NetConnected && socketState != NetRecvFailed && socketState != NetPeerClosed {
        return NOT_CONNECTED;
      }
      if |unsent| == 0 {
        return NORMAL;
      }
      match o {
        case SendBlocks => return SEND_UNCOMPLETED;
        case SentNothing => return NORMAL;
        case SendFailure =>
          socketState := NetSendFailed;
          return SEND_FAILED;
        case Moved(n) =>
          var k := if n < |unsent| then n else |unsent|;
          ret := if k < |unsent| then SEND_UNCOMPLETED else NORMAL;
          assert (wire + unsent[..k]) + unsent[k..] == wire + unsent;
          wire, unsent := wire + unsent[..k], unsent[k..];
      }
    }

    /** TcpSocketUtil::Recv. */
    method SocketRecv(o: RecvOut) returns (ret: int)
      modifies this`socketState, this`recvq
      ensures var r := Receive(old(View()), o);
        View() == old(View()).(sock := r.sock, recvq := old(recvq) + r.ms) && ret == r.code
    {
      assert recvq + [] == recvq;
      if socketState == NetAssertFail {
        return ASSERT_FAILED;
      } else if socketState == NetRecvFailed || socketState == NetPeerClosed {
        return NORMAL;
      } else if socketState != NetConnected && socketState != NetSendFailed {
        return NOT_CONNECTED;
      }
      match o {
        case NothingYet => return NORMAL;
        case RecvFailure =>
          socketState := NetRecvFailed;
          return RECV_FAILED;
        case PeerGone =>
          socketState := NetPeerClosed;
          return PEER_CLOSED;
        case Got(ms) =>
          recvq := recvq + ms;
          return NORMAL;
      }
    }

    method SocketClose()
      modifies this
      ensures View() == CloseSocket(old(View())) && Valid() && queued == [] && events == old(events)
    {
      socketState, unsent, recvq, queued, wire := NetInited, [], [], [], [];
    }

    method Connect(env: Env) returns (ret: int)
      modifies this`socketState, this`sessionState
      ensures (View(), ret) == Dial(old(View()), env)
    {
      if !env.dials {
        return FAILED;
      }
      socketState := NetConnecting;
      sessionState := TcpSyning;
      ret := 0;
    }

    method CheckConnect(env: Env) returns (ret: int)
      requires Valid()
      modifies this
      ensures (View(), ret) == Check(old(View()), env)
      ensures Valid() && events == old(events)
      ensures queued == (if env.check == Refused && !Closed(old(socketState)) then [] else old(queued))
      ensures wire == (if env.check == Refused && !Closed(old(socketState)) then [] else old(wire))
    {
      if Closed(socketState) {
        socketState := NetAssertFail;
        return ASSERT_FAILED;
      }
      match env.check {
        case IsEstablished =>
          socketState := NetConnected;
          return NORMAL;
        case Pending =>
          return NORMAL;
        case Refused =>
          SocketClose();
          return CONNECT_FAILED;
      }
    }

    method SerializeAndSendToPeer(upMsg: CsMsg, env: Env) returns (ret: int)
      requires Valid()
      modifies this`socketState, this`unsent, this`wire, this`queued
      ensures Valid() && queued == old(queued) + Queued(env, upMsg)
      ensures var r := SendToPeer(old(View()), env, upMsg);
        View() == r.client && wire == old(wire) + r.wire && ret == r.code
    {
      assert wire + [] == wire && queued + [] == queued;
      ret := env.push;
      if ret != NORMAL {
        return;
      }
      unsent := unsent + [upMsg];
      queued := queued + [upMsg];
      ret := SocketSend(env.send);
      if ret != NORMAL && ret != SEND_UNCOMPLETED {
        return;
      }
      ret := NORMAL;
    }

    method TryToRecvFromPeerAndParse(env: Env) returns (ret: int)
      modifies this`socketState, this`recvq, this`downMsg
      ensures (View(), ret) == TryRecv(old(View()), env)
    {
      ret := SocketRecv(env.recv);
      if ret != NORMAL {
        return;
      }
      if |recvq| == 0 {
        return NO_MORE_PKG;
      }
      downMsg, recvq := recvq[0], recvq[1..];
      if ERROR == downMsg.bodyid {
        return FAILED;
      }
      ret := 0;
    }

    method HandShake_SYN(env: Env) returns (ret: int)
      requires Valid()
      modifies this
      ensures Valid() && events == old(events) && queued == old(queued) + Queued(env, SynMsg(old(View())))
      ensures var r := SendStep(old(View()), env, SynMsg(old(View())), KeySyning);
        View() == r.client && wire == old(wire) + r.wire && ret == r.code
    {
      var upMsg := CsMsg(MAGIC_CS_V1, seqno, SYN, SynBody(appid, openid));
      seqno := seqno + 1;
      ret := SerializeAndSendToPeer(upMsg, env);
      if ret != NORMAL {
        return;
      }
      sessionState := KeySyning;
      ret := 0;
    }

    method HandShake_TRY_ACK(env: Env) returns (ret: int)
      modifies this`socketState, this`recvq, this`downMsg, this`encryptSkey
      ensures (View(), ret) == TryAck(old(View()), env)
    {
      ret := TryToRecvFromPeerAndParse(env);
      if ret != 0 {
        return;
      }
      if downMsg.bodyid != SYNACK {
        return FAILED;
      }
      encryptSkey := if downMsg.body.AckBody? then downMsg.body.secretkey else [];
      ret := 0;
    }

    method HandShake_AUTH(env: Env) returns (ret: int)
      requires Valid()
      modifies this
      ensures Valid() && events == old(events) && queued == old(queued) + Queued(env, AuthMsg(old(View())))
      ensures var r := SendStep(old(View()), env, AuthMsg(old(View())), Authing);
        View() == r.client && wire == old(wire) + r.wire && ret == r.code
    {
      var upMsg := CsMsg(MAGIC_CS_V1, seqno, AUTHENTICATION, AuthBody(token));
      seqno := seqno + 1;
      ret := SerializeAndSendToPeer(upMsg, env);
      if ret != NORMAL {
        return;
      }
      sessionState := Authing;
      ret := 0;
    }

    method HandShake_TRY_READY(env: Env) returns (ret: int)
      modifies this`socketState, this`recvq, this`downMsg, this`passport, this`sessionState
      ensures (View(), ret) == TryReady(old(View()), env)
    {
      ret := TryToRecvFromPeerAndParse(env);
      if ret != 0 {
        if ret != NO_MORE_PKG {
          return;
        } else {
          return 0;
        }
      }
      if downMsg.bodyid != PASSPORT {
        return FAILED;
      }
      passport := if downMsg.body.PassportBody? then downMsg.body.passport else 0;
      sessionState := Ready;
      ret := 0;
    }

    method HandShake_TRY_DONE(env: Env) returns (ret: int)
      modifies this`socketState, this`recvq, this`downMsg, this`sessionState
      ensures (View(), ret) == TryDone(old(View()), env)
    {
      ret := TryToRecvFromPeerAndParse(env);
      if ret != 0 {
        if ret != NO_MORE_PKG {
          return;
        } else {
          return 0;
        }
      }
      if downMsg.bodyid != START_APP {
        return FAILED;
      }
      sessionState := Done;
      ret := 0;
    }

    /** The switch in Update: what it returns as ret and counts as busy. */
    method DriveState(env: Env) returns (ret: int, busy: int)
      requires Valid() && sessionState != Fini
      modifies this, process
      ensures var d := Drive(old(View()), old(process.handshakeDone), env);
        && View() == d.client && process.handshakeDone == d.told && ret == d.ret && busy == d.busy
        && events == old(events) + d.events
        && (env.check != Refused || old(sessionState) != TcpSyning ==>
              queued == old(queued) + d.queued && wire == old(wire) + d.wire)
      ensures Valid()
    {
      assert wire + [] == wire && queued + [] == queued && events + [] == events;
      ret, busy := 0, 0;
      match sessionState {
        case Inited =>
          ret := Connect(env);
        case TcpSyning =>
          ret := CheckConnect(env);
          if NORMAL == ret && socketState == NetConnected {
            busy := busy + 1;
            ret := HandShake_SYN(env);
          }
        case KeySyning =>
          ret := HandShake_TRY_ACK(env);
          if 0 == ret {
            busy := busy + 1;
            ret := HandShake_AUTH(env);
          } else if NO_MORE_PKG == ret {
            ret := 0;
          }
        case Authing =>
          ret := HandShake_TRY_READY(env);
        case Ready =>
          ret := HandShake_TRY_DONE(env);
        case Done =>
          if !process.handshakeDone {
            events := events + [HandShakeSucceed];
            process.handshakeDone := true;
            busy := busy + 1;
          } else {
            ret := SocketRecv(env.recv);
            if NORMAL == ret && |recvq| > 0 {
              busy := busy + 1;
              events := events + [Incoming];
            }
          }
      }
    }

    method Update(env: Env) returns (result: int)
      requires Valid()
      modifies this, process
      ensures var u := Step(old(View()), old(process.handshakeDone), env);
        && View() == u.client && process.handshakeDone == u.told && result == u.ret
        && events == old(events) + u.events
        && (env.check != Refused || old(sessionState) != TcpSyning ==>
              queued == old(queued) + u.queued && wire == old(wire) + u.wire)
      ensures Valid()
    {
      assert wire + [] == wire && queued + [] == queued && events + [] == events;
      if sessionState == Fini {
        return FAILED;
      }
      var ret, busy := DriveState(env);
      if ret != NORMAL {
        if sessionState != Done {
          events := events + [HandShakeFailed];
          return FAILED;
        } else if PEER_CLOSED == ret {
          events := events + [ServerClose];
          return FAILED;
        }
      }
      result := busy;
    }

    method PushMessage(data: seq<byte>, env: Env) returns (ret: int)
      requires Valid()
      modifies this
      ensures Valid() && events == old(events)
      ensures var (c, code, taken, sent) := Push(old(View()), data, env);
        View() == c && ret == code && queued == old(queued) + taken && wire == old(wire) + sent
    {
      assert wire + [] == wire && queued + [] == queued;
      if |data| == 0 {
        return FAILED;
      }
      var upMsg := CsMsg(MAGIC_CS_V1, seqno, DATA_TRANSPARENT, DataBody(data));
      seqno := seqno + 1;
      var sent := SerializeAndSendToPeer(upMsg, env);
      if sent != 0 {
        return FAILED;
      }
      ret := 0;
    }

    method PeekMessage() returns (ret: int, data: Option<seq<byte>>)
      modifies this`downMsg
      ensures (View(), ret, data) == Peek(old(View()))
    {
      if |recvq| == 0 {
        return NO_MORE_PKG, None;
      }
      downMsg := recvq[0];
      if downMsg.bodyid != DATA_TRANSPARENT {
        return FAILED, None;
      }
      return 0, Some(if downMsg.body.DataBody? then downMsg.body.data else []);
    }

    method PopMessage() returns (ret: int)
      modifies this`recvq
      ensures (View(), ret) == Pop(old(View()))
    {
      if |recvq| > 0 {
        recvq := recvq[1..];
      }
      if downMsg.bodyid != DATA_TRANSPARENT {
        return FAILED;
      }
      ret := 0;
    }

    /** Both buffers are emptied: what was still unsent never leaves. */
    method Resume(env: Env) returns (ret: int)
      modifies this
      ensures (View(), ret) == Restart(old(View()), env) && Valid() && queued == [] && events == old(events)
    {
      SocketClose();
      ret := Connect(env);
    }

    method Terminate() returns (ret: int)
      modifies this
      ensures View() == Terminated(old(View())) && ret == 0 && Valid() && queued == [] && events == old(events)
    {
      SocketClose();
      sessionState := Fini;
      ret := 0;
    }
  }
}
