/** Many calls in flight at once: the stubs of one process, one scheduler, the requests and
    replies under way and a server that computes f.  What has been sent may arrive at any time,
    in any order, any number of times or never, and messages nobody asked for may arrive too. */
module RpcSystem {
  import opened Bytes
  import opened Coroutines
  import opened EasyRpc

  /** What a stub has sent, and what is sent to it. */
  datatype Sent = Sent(rpc: nat, msg: RpcMsg)
  datatype Reply = Reply(rpc: nat, msg: RpcMsg)

  /** issued is every call accepted so far, in the order of the async ids; dropped counts the
      calls whose stub was destroyed before a reply. */
  datatype System = System(sched: Scheduler, seed: nat, stubs: map<nat, seq<Pair>>, requests: set<Sent>,
                           replies: set<Reply>, issued: seq<Call>, log: seq<Callback>, dropped: nat)

  /** How the server ends a call: a response, a response that will not parse, or a cancellation. */
  datatype Outcome = Answered | AnsweredBadly | Cancelled

  datatype Step =
    | NewStub(rpc: nat)
    | CallStep(rpc: nat, request: int, onWire: bool)
    | Serve(sent: Sent, outcome: Outcome)
    | Arrive(rpc: nat, msg: RpcMsg)
    | DestroyStub(rpc: nat)

  function Start(max: nat, cidSeed: nat): System {
    System(Sched(map[], -1, max, cidSeed), 0, map[], {}, {}, [], [], 0)
  }

  /** The server takes requests that parse, and answers under the id they came with. */
  function Closing(f: int -> int, m: RpcMsg, outcome: Outcome): RpcMsg
    requires m.body.Encoded?
  {
    match outcome
    case Answered => RpcMsg(RpcResponse, m.asyncid, Encoded(f(m.body.content)))
    case AnsweredBadly => RpcMsg(RpcResponse, m.asyncid, Garbled)
    case Cancelled => RpcMsg(RpcError, m.asyncid, Garbled)
  }

  predicate Servable(m: RpcMsg) {
    m.kind == RpcRequest && m.body.Encoded?
  }

  predicate Awaited(pairs: seq<Pair>, asyncid: nat) {
    exists p :: p in pairs && p.asyncid == asyncid
  }

  /** A reply that was sent, or one that no call of this stub waits for. */
  predicate MayArrive(s: System, rpc: nat, msg: RpcMsg) {
    rpc in s.stubs && (Reply(rpc, msg) in s.replies || !Awaited(s.stubs[rpc], msg.asyncid))
  }

  function DoCall(s: System, rpc: nat, request: int, onWire: bool): System
    requires rpc in s.stubs
  {
    var r := CallOut(s.sched, s.stubs[rpc], s.seed, rpc, request);
    var t := s.(sched := r.sched, seed := r.seed, stubs := s.stubs[rpc := r.pairs]);
    if r.sent.None? then t
    else t.(requests := if onWire then s.requests + {Sent(rpc, r.sent.value)} else s.requests,
            issued := s.issued + [Call(rpc, request, s.seed)])
  }

  /** A frame from the backend: only a stub with calls outstanding is resumed with it. */
  function DoArrive(s: System, rpc: nat, msg: RpcMsg): System
    requires rpc in s.stubs
  {
    if s.stubs[rpc] == [] then s
    else
      var r := WakeUp(s.sched, s.stubs[rpc], msg);
      s.(sched := r.sched, stubs := s.stubs[rpc := r.pairs],
         log := if r.ran.Some? then s.log + [r.ran.value] else s.log)
  }

  function DoDestroy(s: System, rpc: nat): System
    requires rpc in s.stubs
  {
    s.(sched := DestroyAll(s.sched, s.stubs[rpc]), stubs := s.stubs - {rpc}, dropped := s.dropped + |s.stubs[rpc]|)
  }

  /** One step; a step that cannot happen changes nothing. */
  function Apply(s: System, f: int -> int, step: Step): System {
    match step
    case NewStub(rpc) => if rpc in s.stubs then s else s.(stubs := s.stubs[rpc := []])
    case CallStep(rpc, request, onWire) => if rpc in s.stubs then DoCall(s, rpc, request, onWire) else s
    case Serve(sent, outcome) =>
      if sent in s.requests && Servable(sent.msg) then
        s.(replies := s.replies + {Reply(sent.rpc, Closing(f, sent.msg, outcome))})
      else s
    case Arrive(rpc, msg) => if MayArrive(s, rpc, msg) then DoArrive(s, rpc, msg) else s
    case DestroyStub(rpc) => if rpc in s.stubs then DoDestroy(s, rpc) else s
  }

  function Run(s: System, f: int -> int, steps: seq<Step>): System
    decreases |steps|
  {
    if steps == [] then s else Run(Apply(s, f, steps[0]), f, steps[1..])
  }

  // ---------- lists of pairs ----------

  function Crids(pairs: seq<Pair>): set<int> {
    if pairs == [] then {} else {pairs[0].crid} + Crids(pairs[1..])
  }

  predicate Distinct(pairs: seq<Pair>) {
    pairs == [] || (pairs[0].crid !in Crids(pairs[1..]) && Distinct(pairs[1..]))
  }

  lemma {:induction false} CridsHave(pairs: seq<Pair>, p: Pair)
    requires p in pairs
    ensures p.crid in Crids(pairs)
    decreases |pairs|
  {
    if p != pairs[0] {
      CridsHave(pairs[1..], p);
    }
  }

  lemma {:induction false} CridsCome(pairs: seq<Pair>, c: int) returns (p: Pair)
    requires c in Crids(pairs)
    ensures p in pairs && p.crid == c
    decreases |pairs|
  {
    if pairs[0].crid == c {
      p := pairs[0];
    } else {
      p := CridsCome(pairs[1..], c);
    }
  }

  lemma {:induction false} CridsOfMore(pairs: seq<Pair>, p: Pair)
    ensures Crids(pairs + [p]) == Crids(pairs) + {p.crid}
    ensures Distinct(pairs) && p.crid !in Crids(pairs) ==> Distinct(pairs + [p])
    decreases |pairs|
  {
    if pairs == [] {
      assert [p][1..] == [];
    } else {
      CridsOfMore(pairs[1..], p);
      assert (pairs + [p])[1..] == pairs[1..] + [p];
    }
  }

  lemma {:induction false} CridsOfFewer(pairs: seq<Pair>, c: int)
    requires Distinct(pairs)
    ensures Crids(RemoveCrid(pairs, c)) == Crids(pairs) - {c}
    ensures Distinct(RemoveCrid(pairs, c))
    ensures forall p :: p in RemoveCrid(pairs, c) <==> p in pairs && p.crid != c
    decreases |pairs|
  {
    if pairs == [] {
    } else if pairs[0].crid == c {
      forall p | p in pairs[1..] ensures p.crid != c {
        CridsHave(pairs[1..], p);
      }
    } else {
      CridsOfFewer(pairs[1..], c);
      assert RemoveCrid(pairs, c)[1..] == RemoveCrid(pairs[1..], c);
    }
  }

  lemma {:induction false} NothingToRemove(pairs: seq<Pair>, c: int)
    requires c !in Crids(pairs)
    ensures RemoveCrid(pairs, c) == pairs
    decreases |pairs|
  {
    if pairs != [] {
      NothingToRemove(pairs[1..], c);
      assert [pairs[0]] + pairs[1..] == pairs;
    }
  }

  lemma {:induction false} FindFinds(pairs: seq<Pair>, asyncid: nat) returns (p: Pair)
    requires Awaited(pairs, asyncid)
    ensures p in pairs && p.asyncid == asyncid && FindCrid(pairs, asyncid) == p.crid
    decreases |pairs|
  {
    if pairs[0].asyncid == asyncid {
      p := pairs[0];
    } else {
      p := FindFinds(pairs[1..], asyncid);
    }
  }

  lemma {:induction false} FindMisses(pairs: seq<Pair>, asyncid: nat)
    requires !Awaited(pairs, asyncid)
    ensures FindCrid(pairs, asyncid) == -1
    decreases |pairs|
  {
    if pairs != [] {
      assert pairs[0] in pairs;
      FindMisses(pairs[1..], asyncid);
    }
  }

  lemma TwiceLess<V>(m: map<int, V>, c: int, rest: set<int>)
    ensures (m - {c}) - rest == m - ({c} + rest)
  {
  }

  lemma {:induction false} DestroyAllRemoves(sched: Scheduler, pairs: seq<Pair>)
    requires InMain(sched) && Distinct(pairs) && Crids(pairs) <= sched.table.Keys
    ensures InMain(DestroyAll(sched, pairs))
    ensures DestroyAll(sched, pairs).table == sched.table - Crids(pairs)
    ensures |DestroyAll(sched, pairs).table| == |sched.table| - |pairs|
    decreases |pairs|
  {
    if pairs == [] {
      assert sched.table - {} == sched.table;
    } else {
      var next := Destroy(sched, pairs[0].crid);
      DestroyKeepsMain(sched, pairs[0].crid);
      OneFewer(sched.table, pairs[0].crid);
      DestroyAllRemoves(next, pairs[1..]);
      TwiceLess(sched.table, pairs[0].crid, Crids(pairs[1..]));
    }
  }

  // ---------- the invariant ----------

  ghost predicate Waits(s: System, c: int, x: Ctx<Call>) {
    && x.state == Suspend
    && x.arg.asyncid < |s.issued| && s.issued[x.arg.asyncid] == x.arg
    && x.arg.rpc in s.stubs && Pair(c, x.arg.asyncid) in s.stubs[x.arg.rpc]
  }

  ghost predicate Listed(s: System, rpc: nat, p: Pair) {
    p.crid in s.sched.table && s.sched.table[p.crid].arg.asyncid == p.asyncid && s.sched.table[p.crid].arg.rpc == rpc
  }

  /** A request under way carries the id and the content of a call its stub made. */
  ghost predicate Asked(s: System, x: Sent) {
    && Servable(x.msg) && x.msg.asyncid < |s.issued|
    && s.issued[x.msg.asyncid] == Call(x.rpc, x.msg.body.content, x.msg.asyncid)
  }

  ghost predicate Ours(s: System, f: int -> int, r: Reply) {
    && r.msg.asyncid < |s.issued| && s.issued[r.msg.asyncid].rpc == r.rpc
    && (|| r.msg.kind == RpcError
        || (r.msg.kind == RpcResponse && r.msg.body in {Garbled, Encoded(f(s.issued[r.msg.asyncid].request))}))
  }

  /** What a callback gets: status -1 exactly when its reply is an error or does not parse, and
      otherwise the value of f at the request of its own call. */
  ghost predicate Faithful(f: int -> int, ran: Callback) {
    && ran.reply.asyncid == ran.call.asyncid
    && (ran.status == -1 <==> ran.reply.kind == RpcError || ran.reply.body.Garbled?)
    && (ran.status == -1 ==> ran.response == None)
    && (ran.status != -1 ==> ran.status == 0 && ran.response == Some(f(ran.call.request)))
  }

  ghost predicate Answer1(s: System, f: int -> int, ran: Callback) {
    Faithful(f, ran) && ran.call.asyncid < |s.issued| && s.issued[ran.call.asyncid] == ran.call
  }

  predicate Pending(s: System, asyncid: nat) {
    exists c :: c in s.sched.table && s.sched.table[c].arg.asyncid == asyncid
  }

  ghost predicate OneCallEach(table: map<int, Ctx<Call>>) {
    forall c, d :: c in table && d in table && table[c].arg.asyncid == table[d].arg.asyncid ==> c == d
  }

  ghost predicate OnceEach(log: seq<Callback>) {
    forall i, j :: 0 <= i < j < |log| ==> log[i].call.asyncid != log[j].call.asyncid
  }

  ghost predicate Scheduled(s: System) {
    && InMain(s.sched)
    && OneCallEach(s.sched.table)
    && (forall c :: c in s.sched.table ==> Waits(s, c, s.sched.table[c]))
    && (forall r :: r in s.stubs ==> Distinct(s.stubs[r]))
    && (forall r, p :: r in s.stubs && p in s.stubs[r] ==> Listed(s, r, p))
  }

  ghost predicate Recorded(s: System, f: int -> int) {
    && |s.issued| == s.seed && (forall a :: 0 <= a < s.seed ==> s.issued[a].asyncid == a)
    && (forall x :: x in s.requests ==> Asked(s, x))
    && (forall r :: r in s.replies ==> Ours(s, f, r))
    && (forall i :: 0 <= i < |s.log| ==> Answer1(s, f, s.log[i]) && !Pending(s, s.log[i].call.asyncid))
    && OnceEach(s.log)
  }

  ghost predicate Inv(s: System, f: int -> int) {
    Scheduled(s) && Recorded(s, f) && s.seed == |s.log| + |s.sched.table| + s.dropped
  }

  lemma StartInv(max: nat, cidSeed: nat, f: int -> int)
    ensures Inv(Start(max, cidSeed), f)
  {
  }

  // ---------- every step keeps it ----------

  /** A call is accepted exactly when the scheduler has room; then it waits, listed once. */
  lemma CallKeeps(s: System, f: int -> int, rpc: nat, request: int, onWire: bool)
    requires Inv(s, f) && rpc in s.stubs
    ensures var t := DoCall(s, rpc, request, onWire);
      Inv(t, f) && t.log == s.log
      && (|s.sched.table| < s.sched.max ==>
            && t.seed == s.seed + 1 && Pending(t, s.seed) && Awaited(t.stubs[rpc], s.seed)
            && t.issued == s.issued + [Call(rpc, request, s.seed)]
            && t.requests == s.requests + if onWire then {Sent(rpc, RpcMsg(RpcRequest, s.seed, Encoded(request)))} else {})
      && (|s.sched.table| >= s.sched.max ==> t == s)
  {
    var t := DoCall(s, rpc, request, onWire);
    if |s.sched.table| >= s.sched.max {
      assert s.stubs[rpc := s.stubs[rpc]] == s.stubs;
    } else {
      var call, c := Call(rpc, request, s.seed), s.sched.seed;
      CreateKeepsMain(s.sched, call);
      var created := Create(s.sched, call).0;
      SwitchInRuns(created, c);
      var running := SwitchIn(created, c).0;
      YieldReturns(running, c);
      assert t.sched.table == s.sched.table[c := Ctx(Suspend, call)];
      OneMore(s.sched.table, c, Ctx(Suspend, call));
      assert c in t.sched.table && t.sched.table[c].arg.asyncid == s.seed;
      forall p | p in s.stubs[rpc] ensures p.crid != c {
        assert Listed(s, rpc, p);
      }
      if c in Crids(s.stubs[rpc]) {
        var p := CridsCome(s.stubs[rpc], c);
      }
      CridsOfMore(s.stubs[rpc], Pair(c, s.seed));
      assert Pair(c, s.seed) in t.stubs[rpc];
      CallSchedules(s, t, rpc, c, call);
      CallRecords(s, f, t, c, call);
    }
  }

  lemma CallSchedules(s: System, t: System, rpc: nat, c: int, call: Call)
    requires Scheduled(s) && rpc in s.stubs && |s.issued| == s.seed && c !in s.sched.table && c == s.sched.seed
    requires call.rpc == rpc && call.asyncid == s.seed && InMain(t.sched)
    requires t.sched.table == s.sched.table[c := Ctx(Suspend, call)] && t.issued == s.issued + [call]
    requires t.stubs == s.stubs[rpc := s.stubs[rpc] + [Pair(c, s.seed)]] && Distinct(t.stubs[rpc])
    ensures Scheduled(t)
  {
    forall d | d in t.sched.table ensures Waits(t, d, t.sched.table[d]) {
      if d == c {
        assert Pair(c, s.seed) in t.stubs[rpc];
      } else {
        assert Waits(s, d, s.sched.table[d]);
      }
    }
    forall r, p | r in t.stubs && p in t.stubs[r] ensures Listed(t, r, p) {
      if r == rpc && p == Pair(c, s.seed) {
      } else {
        assert Listed(s, r, p);
      }
    }
    assert OneCallEach(t.sched.table) by {
      forall d | d in s.sched.table ensures s.sched.table[d].arg.asyncid < s.seed {
        assert Waits(s, d, s.sched.table[d]);
      }
    }
  }

  lemma CallRecords(s: System, f: int -> int, t: System, c: int, call: Call)
    requires Scheduled(s) && Recorded(s, f) && call.asyncid == s.seed && t.seed == s.seed + 1
    requires t.sched.table == s.sched.table[c := Ctx(Suspend, call)] && t.issued == s.issued + [call]
    requires t.replies == s.replies && t.log == s.log
    requires s.requests <= t.requests <= s.requests + {Sent(call.rpc, RpcMsg(RpcRequest, s.seed, Encoded(call.request)))}
    ensures Recorded(t, f)
  {
    forall x | x in t.requests ensures Asked(t, x) {
      assert x in s.requests ==> Asked(s, x);
    }
    forall r | r in t.replies ensures Ours(t, f, r) {
      assert Ours(s, f, r);
    }
    forall i | 0 <= i < |t.log| ensures Answer1(t, f, t.log[i]) && !Pending(t, t.log[i].call.asyncid) {
      assert Answer1(s, f, s.log[i]) && !Pending(s, s.log[i].call.asyncid);
    }
  }

  /** A message for a call that is waiting runs that call's callback, once and with what the
      message says, and from then on the call waits no more. */
  lemma AwaitedArrives(s: System, f: int -> int, rpc: nat, msg: RpcMsg)
    requires Inv(s, f) && MayArrive(s, rpc, msg) && Awaited(s.stubs[rpc], msg.asyncid)
    ensures var t := DoArrive(s, rpc, msg);
      && Inv(t, f) && msg.asyncid < |s.issued|
      && t.log == s.log + [Answer(s.issued[msg.asyncid], msg)]
      && t.issued == s.issued && t.seed == s.seed
      && Pending(s, msg.asyncid) && !Pending(t, msg.asyncid)
      && forall a :: a != msg.asyncid ==> Pending(t, a) == Pending(s, a)
  {
    var t := DoArrive(s, rpc, msg);
    var p := FindFinds(s.stubs[rpc], msg.asyncid);
    var c := p.crid;
    assert Listed(s, rpc, p) && Waits(s, c, s.sched.table[c]);
    SwitchInRuns(s.sched, c);
    var running := SwitchIn(s.sched, c).0;
    FinishReturns(running, c);
    assert t.sched.table == s.sched.table - {c};
    OneFewer(s.sched.table, c);
    CridsOfFewer(s.stubs[rpc], c);
    assert t.log == s.log + [Answer(s.issued[msg.asyncid], msg)];
    assert !Pending(t, msg.asyncid);
    forall a | a != msg.asyncid ensures Pending(t, a) == Pending(s, a) {
      if Pending(s, a) {
        var d :| d in s.sched.table && s.sched.table[d].arg.asyncid == a;
        assert d in t.sched.table;
      }
    }
    ArrivalSchedules(s, t, rpc, c);
    ArrivalRecords(s, f, t, rpc, msg);
  }

  lemma ArrivalSchedules(s: System, t: System, rpc: nat, c: int)
    requires Scheduled(s) && rpc in s.stubs && InMain(t.sched)
    requires t.sched.table == s.sched.table - {c} && t.issued == s.issued
    requires c in s.sched.table && s.sched.table[c].arg.rpc == rpc
    requires t.stubs == s.stubs[rpc := RemoveCrid(s.stubs[rpc], c)]
    ensures Scheduled(t)
  {
    CridsOfFewer(s.stubs[rpc], c);
    forall d | d in t.sched.table ensures Waits(t, d, t.sched.table[d]) {
      assert Waits(s, d, s.sched.table[d]);
    }
    forall r, p | r in t.stubs && p in t.stubs[r] ensures Listed(t, r, p) {
      assert Listed(s, r, p);
    }
  }

  lemma ArrivalRecords(s: System, f: int -> int, t: System, rpc: nat, msg: RpcMsg)
    requires Recorded(s, f) && Reply(rpc, msg) in s.replies && Pending(s, msg.asyncid) && !Pending(t, msg.asyncid)
    requires t.(sched := s.sched, stubs := s.stubs, log := s.log) == s && t.sched.table.Keys <= s.sched.table.Keys
    requires forall d :: d in t.sched.table ==> t.sched.table[d] == s.sched.table[d]
    requires msg.asyncid < |s.issued| && t.log == s.log + [Answer(s.issued[msg.asyncid], msg)]
    ensures Recorded(t, f)
  {
    assert Ours(s, f, Reply(rpc, msg));
    forall x | x in t.requests ensures Asked(t, x) {
      assert Asked(s, x);
    }
    forall r | r in t.replies ensures Ours(t, f, r) {
      assert Ours(s, f, r);
    }
    forall i | 0 <= i < |t.log| ensures Answer1(t, f, t.log[i]) && !Pending(t, t.log[i].call.asyncid) {
      if i < |s.log| {
        assert Answer1(s, f, s.log[i]) && !Pending(s, s.log[i].call.asyncid);
      }
    }
  }

  /** A message no call of the stub waits for changes nothing at all. */
  lemma UnawaitedIsIgnored(s: System, f: int -> int, rpc: nat, msg: RpcMsg)
    requires Inv(s, f) && rpc in s.stubs && !Awaited(s.stubs[rpc], msg.asyncid)
    ensures DoArrive(s, rpc, msg) == s
  {
    FindMisses(s.stubs[rpc], msg.asyncid);
    forall c | c in Crids(s.stubs[rpc]) ensures c >= 0 {
      var p := CridsCome(s.stubs[rpc], c);
      assert Listed(s, rpc, p);
    }
    NothingToRemove(s.stubs[rpc], -1);
    assert s.stubs[rpc := s.stubs[rpc]] == s.stubs;
  }

  /** A request under way whose call still waits: whenever the server answers it and the answer
      arrives, that call's callback runs, with f of the request it was made with. */
  lemma AnswerComesHome(s: System, f: int -> int, x: Sent, outcome: Outcome)
    requires Inv(s, f) && x in s.requests && x.rpc in s.stubs && Awaited(s.stubs[x.rpc], x.msg.asyncid)
    ensures Servable(x.msg) && x.msg.asyncid < |s.issued|
    ensures var reply, call := Closing(f, x.msg, outcome), s.issued[x.msg.asyncid];
      var t := Apply(Apply(s, f, Serve(x, outcome)), f, Arrive(x.rpc, reply));
      && call.rpc == x.rpc && !Pending(t, x.msg.asyncid)
      && t.log == s.log + [if outcome == Answered then Callback(call, 0, Some(f(call.request)), reply)
                           else Callback(call, -1, None, reply)]
  {
    assert Asked(s, x);
    ServeKeeps(s, f, x, outcome);
    AwaitedArrives(Apply(s, f, Serve(x, outcome)), f, x.rpc, Closing(f, x.msg, outcome));
  }

  /** So a call that has just been accepted, and whose request went out, behaves as a direct call
      of f once it is answered. */
  lemma CallReturns(s: System, f: int -> int, rpc: nat, request: int)
    requires Inv(s, f) && rpc in s.stubs && |s.sched.table| < s.sched.max
    ensures var msg := RpcMsg(RpcRequest, s.seed, Encoded(request));
      var reply := Closing(f, msg, Answered);
      var u := Apply(s, f, CallStep(rpc, request, true));
      var t := Apply(Apply(u, f, Serve(Sent(rpc, msg), Answered)), f, Arrive(rpc, reply));
      && CallOut(s.sched, s.stubs[rpc], s.seed, rpc, request).sent == Some(msg)
      && t.log == s.log + [Callback(Call(rpc, request, s.seed), 0, Some(f(request)), reply)]
  {
    CallKeeps(s, f, rpc, request, true);
    AcceptedCallIsListed(s.sched, s.stubs[rpc], s.seed, rpc, request);
    CallReturnsFrom(s, DoCall(s, rpc, request, true), f, rpc, request);
  }

  lemma CallReturnsFrom(s: System, u: System, f: int -> int, rpc: nat, request: int)
    requires Inv(u, f) && rpc in u.stubs && Awaited(u.stubs[rpc], s.seed) && |s.issued| == s.seed && u.log == s.log
    requires u.issued == s.issued + [Call(rpc, request, s.seed)]
    requires Sent(rpc, RpcMsg(RpcRequest, s.seed, Encoded(request))) in u.requests
    ensures var msg := RpcMsg(RpcRequest, s.seed, Encoded(request));
      var reply := Closing(f, msg, Answered);
      var t := Apply(Apply(u, f, Serve(Sent(rpc, msg), Answered)), f, Arrive(rpc, reply));
      t.log == s.log + [Callback(Call(rpc, request, s.seed), 0, Some(f(request)), reply)]
  {
    AnswerComesHome(u, f, Sent(rpc, RpcMsg(RpcRequest, s.seed, Encoded(request))), Answered);
  }

  lemma StubsPartition(s: System)
    requires Scheduled(s)
    ensures forall r, c :: r in s.stubs && c in Crids(s.stubs[r]) ==> c in s.sched.table && s.sched.table[c].arg.rpc == r
    ensures forall c :: c in s.sched.table ==>
        var arg := s.sched.table[c].arg; arg.rpc in s.stubs && c in Crids(s.stubs[arg.rpc])
  {
    forall r, c | r in s.stubs && c in Crids(s.stubs[r]) ensures c in s.sched.table && s.sched.table[c].arg.rpc == r {
      var p := CridsCome(s.stubs[r], c);
      assert Listed(s, r, p);
    }
    forall c | c in s.sched.table
      ensures var arg := s.sched.table[c].arg; arg.rpc in s.stubs && c in Crids(s.stubs[arg.rpc])
    {
      var arg := s.sched.table[c].arg;
      assert Waits(s, c, s.sched.table[c]);
      CridsHave(s.stubs[arg.rpc], Pair(c, arg.asyncid));
    }
  }

  lemma DestroyedTable(s: System, rpc: nat)
    requires Scheduled(s) && rpc in s.stubs
    ensures InMain(DestroyAll(s.sched, s.stubs[rpc]))
    ensures DestroyAll(s.sched, s.stubs[rpc]).table == s.sched.table - Crids(s.stubs[rpc])
    ensures |DestroyAll(s.sched, s.stubs[rpc]).table| == |s.sched.table| - |s.stubs[rpc]|
  {
    StubsPartition(s);
    forall c | c in Crids(s.stubs[rpc]) ensures c in s.sched.table.Keys {
      assert c in s.sched.table;
    }
    DestroyAllRemoves(s.sched, s.stubs[rpc]);
  }

  /** Destroying a stub drops exactly the calls it still had waiting. */
  lemma DestroyKeeps(s: System, f: int -> int, rpc: nat)
    requires Inv(s, f) && rpc in s.stubs
    ensures Inv(DoDestroy(s, rpc), f)
    ensures forall c :: c in DoDestroy(s, rpc).sched.table <==> c in s.sched.table && s.sched.table[c].arg.rpc != rpc
  {
    var t := DoDestroy(s, rpc);
    DestroyedTable(s, rpc);
    StubsPartition(s);
    DestroySchedules(s, t, rpc);
    DestroyRecords(s, f, t);
  }

  lemma DestroySchedules(s: System, t: System, rpc: nat)
    requires Scheduled(s) && rpc in s.stubs && InMain(t.sched)
    requires t.sched.table == s.sched.table - Crids(s.stubs[rpc]) && t.stubs == s.stubs - {rpc} && t.issued == s.issued
    ensures Scheduled(t)
  {
    StubsPartition(s);
    forall d | d in t.sched.table ensures Waits(t, d, t.sched.table[d]) {
      assert Waits(s, d, s.sched.table[d]);
    }
    forall r, p | r in t.stubs && p in t.stubs[r] ensures Listed(t, r, p) {
      assert Listed(s, r, p);
    }
  }

  lemma DestroyRecords(s: System, f: int -> int, t: System)
    requires Recorded(s, f) && t.(sched := s.sched, stubs := s.stubs, dropped := s.dropped) == s
    requires t.sched.table.Keys <= s.sched.table.Keys
    requires forall d :: d in t.sched.table ==> t.sched.table[d] == s.sched.table[d]
    ensures Recorded(t, f)
  {
    forall x | x in t.requests ensures Asked(t, x) {
      assert Asked(s, x);
    }
    forall r | r in t.replies ensures Ours(t, f, r) {
      assert Ours(s, f, r);
    }
    forall i | 0 <= i < |t.log| ensures Answer1(t, f, t.log[i]) && !Pending(t, t.log[i].call.asyncid) {
      assert Answer1(s, f, s.log[i]) && !Pending(s, s.log[i].call.asyncid);
    }
  }

  lemma ServeKeeps(s: System, f: int -> int, sent: Sent, outcome: Outcome)
    requires Inv(s, f) && sent in s.requests
    ensures Inv(Apply(s, f, Serve(sent, outcome)), f)
  {
    var t := Apply(s, f, Serve(sent, outcome));
    assert Asked(s, sent);
    forall c | c in t.sched.table ensures Waits(t, c, t.sched.table[c]) {
      assert Waits(s, c, s.sched.table[c]);
    }
    forall r, p | r in t.stubs && p in t.stubs[r] ensures Listed(t, r, p) {
      assert Listed(s, r, p);
    }
    forall x | x in t.requests ensures Asked(t, x) {
      assert Asked(s, x);
    }
    forall r | r in t.replies ensures Ours(t, f, r) {
      assert r in s.replies ==> Ours(s, f, r);
    }
    forall i | 0 <= i < |t.log| ensures Answer1(t, f, t.log[i]) && !Pending(t, t.log[i].call.asyncid) {
      assert Answer1(s, f, s.log[i]) && !Pending(s, s.log[i].call.asyncid);
    }
  }

  lemma NewStubKeeps(s: System, f: int -> int, rpc: nat)
    requires Inv(s, f) && rpc !in s.stubs
    ensures Inv(s.(stubs := s.stubs[rpc := []]), f)
  {
    var t := s.(stubs := s.stubs[rpc := []]);
    forall c | c in t.sched.table ensures Waits(t, c, t.sched.table[c]) {
      assert Waits(s, c, s.sched.table[c]);
    }
    forall r, p | r in t.stubs && p in t.stubs[r] ensures Listed(t, r, p) {
      assert Listed(s, r, p);
    }
    DestroyRecords(s, f, t);
  }

  lemma StepKeeps(s: System, f: int -> int, step: Step)
    requires Inv(s, f)
    ensures Inv(Apply(s, f, step), f)
    ensures s.log <= Apply(s, f, step).log && s.issued <= Apply(s, f, step).issued
  {
    match step
    case NewStub(rpc) => if rpc !in s.stubs { NewStubKeeps(s, f, rpc); }
    case CallStep(rpc, request, onWire) => if rpc in s.stubs { CallKeeps(s, f, rpc, request, onWire); }
    case Serve(sent, outcome) => if sent in s.requests { ServeKeeps(s, f, sent, outcome); }
    case Arrive(rpc, msg) =>
      if MayArrive(s, rpc, msg) {
        if Awaited(s.stubs[rpc], msg.asyncid) {
          AwaitedArrives(s, f, rpc, msg);
        } else {
          UnawaitedIsIgnored(s, f, rpc, msg);
        }
      }
    case DestroyStub(rpc) => if rpc in s.stubs { DestroyKeeps(s, f, rpc); }
  }

  lemma {:induction false} RunKeeps(s: System, f: int -> int, steps: seq<Step>)
    requires Inv(s, f)
    ensures Inv(Run(s, f, steps), f)
    ensures s.log <= Run(s, f, steps).log && s.issued <= Run(s, f, steps).issued
    decreases |steps|
  {
    if steps != [] {
      StepKeeps(s, f, steps[0]);
      RunKeeps(Apply(s, f, steps[0]), f, steps[1..]);
    }
  }

  // ---------- what every run shows ----------

  /** Whatever the interleaving, each callback runs at most once, for a call that was accepted,
      and gets what a direct call would give: f of its own request, or -1 exactly when its reply
      is an error or does not parse. */
  lemma CallbacksRefineDirectCalls(max: nat, cidSeed: nat, f: int -> int, steps: seq<Step>)
    ensures var s := Run(Start(max, cidSeed), f, steps);
      && (forall i :: 0 <= i < |s.log| ==> Faithful(f, s.log[i]))
      && (forall i :: 0 <= i < |s.log| ==> s.log[i].call in s.issued)
      && (forall i, j :: 0 <= i < j < |s.log| ==> s.log[i].call != s.log[j].call)
  {
    StartInv(max, cidSeed, f);
    RunKeeps(Start(max, cidSeed), f, steps);
    var s := Run(Start(max, cidSeed), f, steps);
    forall i | 0 <= i < |s.log| ensures Faithful(f, s.log[i]) && s.log[i].call in s.issued {
      assert Answer1(s, f, s.log[i]);
    }
  }

  /** Every coroutine is suspended and listed once by exactly one stub, the one that called,
      under an async id below the seed that no other coroutine has. */
  ghost predicate ListsPartition(s: System) {
    && (forall c :: c in s.sched.table ==> s.sched.table[c].state == Suspend && s.sched.table[c].arg.asyncid < s.seed)
    && (forall c :: c in s.sched.table ==> s.sched.table[c].arg.rpc in s.stubs)
    && OneCallEach(s.sched.table)
    && (forall r :: r in s.stubs ==> Distinct(s.stubs[r]))
    && (forall r, c :: r in s.stubs ==> (c in Crids(s.stubs[r]) <==> c in s.sched.table && s.sched.table[c].arg.rpc == r))
  }

  lemma ListsDoPartition(s: System)
    requires Scheduled(s) && |s.issued| == s.seed
    ensures ListsPartition(s)
  {
    forall c | c in s.sched.table ensures s.sched.table[c].state == Suspend && s.sched.table[c].arg.asyncid < s.seed {
      assert Waits(s, c, s.sched.table[c]);
    }
    StubsPartition(s);
  }

  /** The calls accepted are the callbacks run, the calls waiting and the calls dropped with
      their stub, and those waiting are shared out among the stubs. */
  lemma CallsAreConserved(max: nat, cidSeed: nat, f: int -> int, steps: seq<Step>)
    ensures var s := Run(Start(max, cidSeed), f, steps);
      |s.issued| == s.seed == |s.log| + |s.sched.table| + s.dropped && ListsPartition(s)
  {
    StartInv(max, cidSeed, f);
    RunKeeps(Start(max, cidSeed), f, steps);
    ListsDoPartition(Run(Start(max, cidSeed), f, steps));
  }

  lemma StaysSettled(s: System, f: int -> int, step: Step, asyncid: nat)
    requires Inv(s, f) && asyncid < s.seed && !Pending(s, asyncid)
    ensures !Pending(Apply(s, f, step), asyncid) && asyncid < Apply(s, f, step).seed
  {
    StepKeeps(s, f, step);
    var t := Apply(s, f, step);
    match step
    case NewStub(rpc) =>
    case Serve(sent, outcome) =>
    case CallStep(rpc, request, onWire) =>
      if rpc in s.stubs && |s.sched.table| < s.sched.max {
        CreateKeepsMain(s.sched, Call(rpc, request, s.seed));
        var created := Create(s.sched, Call(rpc, request, s.seed)).0;
        SwitchInRuns(created, s.sched.seed);
        YieldReturns(SwitchIn(created, s.sched.seed).0, s.sched.seed);
        assert t.sched.table == s.sched.table[s.sched.seed := Ctx(Suspend, Call(rpc, request, s.seed))];
      } else if rpc in s.stubs {
        CallKeeps(s, f, rpc, request, onWire);
      }
    case Arrive(rpc, msg) =>
      if MayArrive(s, rpc, msg) {
        if Awaited(s.stubs[rpc], msg.asyncid) {
          AwaitedArrives(s, f, rpc, msg);
        } else {
          UnawaitedIsIgnored(s, f, rpc, msg);
        }
      }
    case DestroyStub(rpc) =>
      if rpc in s.stubs {
        DestroyedTable(s, rpc);
      }
  }

  lemma {:induction false} RunStaysSettled(s: System, f: int -> int, steps: seq<Step>, asyncid: nat)
    requires Inv(s, f) && asyncid < s.seed && !Pending(s, asyncid)
    ensures !Pending(Run(s, f, steps), asyncid)
    decreases |steps|
  {
    if steps != [] {
      StepKeeps(s, f, steps[0]);
      StaysSettled(s, f, steps[0], asyncid);
      RunStaysSettled(Apply(s, f, steps[0]), f, steps[1..], asyncid);
    }
  }

  /** Once a reply has been taken, any other message with its id, whatever it says, whichever
      stub it comes to and whatever happened in between, leaves the whole system as it is. */
  lemma DuplicatesChangeNothing(s: System, f: int -> int, rpc: nat, msg: RpcMsg, between: seq<Step>, other: nat, again: RpcMsg)
    requires Inv(s, f) && MayArrive(s, rpc, msg) && Awaited(s.stubs[rpc], msg.asyncid) && again.asyncid == msg.asyncid
    ensures var t := Run(Apply(s, f, Arrive(rpc, msg)), f, between); Apply(t, f, Arrive(other, again)) == t
  {
    AwaitedArrives(s, f, rpc, msg);
    var u := Apply(s, f, Arrive(rpc, msg));
    RunKeeps(u, f, between);
    RunStaysSettled(u, f, between, msg.asyncid);
    var t := Run(u, f, between);
    if MayArrive(t, other, again) {
      assert !Awaited(t.stubs[other], again.asyncid) by {
        forall p | p in t.stubs[other] ensures p.asyncid != again.asyncid {
          assert Listed(t, other, p);
        }
      }
      UnawaitedIsIgnored(t, f, other, again);
    }
  }
}
