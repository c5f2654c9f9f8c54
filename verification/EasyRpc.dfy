/** One RPC stub over the coroutine scheduler: a call starts a coroutine that sends the request
    and yields; the reply resumes it and its callback runs.  Request and response messages are
    numbered contents behind an injective encoding; a body that does not parse is Garbled. */
module EasyRpc {
  import opened Bytes
  import opened Coroutines

  datatype MsgType = RpcRequest | RpcResponse | RpcError
  datatype Body = Encoded(content: int) | Garbled
  datatype RpcMsg = RpcMsg(kind: MsgType, asyncid: nat, body: Body)

  /** What the coroutine carries: whose call it is, its request, and the async id it was given. */
  datatype Call = Call(rpc: nat, request: int, asyncid: nat)

  /** One run of a callback: the call, the status and response it was given, and the reply that
      brought it about. */
  datatype Callback = Callback(call: Call, status: int, response: Option<int>, reply: RpcMsg)

  datatype Pair = Pair(crid: int, asyncid: nat)

  type Scheduler = Sched<Call>

  // ---------- what the stub does ----------

  function FindCrid(pairs: seq<Pair>, asyncid: nat): int {
    if pairs == [] then -1 else if pairs[0].asyncid == asyncid then pairs[0].crid else FindCrid(pairs[1..], asyncid)
  }

  function RemoveCrid(pairs: seq<Pair>, crid: int): seq<Pair> {
    if pairs == [] then [] else if pairs[0].crid == crid then pairs[1..] else [pairs[0]] + RemoveCrid(pairs[1..], crid)
  }

  datatype CallResult = CallResult(sched: Scheduler, pairs: seq<Pair>, seed: nat, ret: int, sent: Option<RpcMsg>)

  /** RpcCall: the coroutine is listed under the next async id, runs up to its yield, and that is
      when the request goes out under that same id. */
  function CallOut(sched: Scheduler, pairs: seq<Pair>, seed: nat, rpc: nat, request: int): (r: CallResult) {
    var (created, cid) := Create(sched, Call(rpc, request, seed));
    if cid < 0 then CallResult(sched, pairs, seed, -1, None)
    else if created.table[cid].state != Ready then CallResult(sched, pairs, seed, -1, None)
    else
      var (running, _) := SwitchIn(created, cid);
      CallResult(AfterSwap(Yield(running), cid), pairs + [Pair(cid, seed)], seed + 1, 0,
                 Some(RpcMsg(RpcRequest, seed, Encoded(request))))
  }

  /** What RpcFunction hands to the callback after it has been resumed. */
  function Answer(call: Call, reply: RpcMsg): Callback {
    if reply.kind == RpcError || reply.body.Garbled? then Callback(call, -1, None, reply)
    else Callback(call, 0, Some(reply.body.content), reply)
  }

  datatype ResumeResult = ResumeResult(sched: Scheduler, pairs: seq<Pair>, ran: Option<Callback>)

  /** Resume once the buffer has unpacked: wake the coroutine listed under the async id, let it
      run its callback to the end, and unlist whatever is not alive any more. */
  function WakeUp(sched: Scheduler, pairs: seq<Pair>, msg: RpcMsg): (r: ResumeResult) {
    var crid := FindCrid(pairs, msg.asyncid);
    if !BeenAlive(sched, crid) then ResumeResult(sched, RemoveCrid(pairs, crid), None)
    else
      var (running, switched) := SwitchIn(sched, crid);
      if !switched then ResumeResult(running, pairs, None)
      else
        var after := AfterSwap(Finish(running), crid);
        ResumeResult(after, if BeenAlive(after, crid) then pairs else RemoveCrid(pairs, crid),
                     Some(Answer(running.table[crid].arg, msg)))
  }

  /** The destructor of a stub. */
  function DestroyAll(sched: Scheduler, pairs: seq<Pair>): Scheduler
    decreases |pairs|
  {
    if pairs == [] then sched else DestroyAll(Destroy(sched, pairs[0].crid), pairs[1..])
  }

  /** A call is accepted exactly when the scheduler has room.  Then the request that goes out is the
      caller's, under the very id of the pair it adds to the list, and the coroutine of that pair
      waits; otherwise nothing happens. */
  lemma AcceptedCallIsListed(sched: Scheduler, pairs: seq<Pair>, seed: nat, rpc: nat, request: int)
    requires InMain(sched)
    ensures var r := CallOut(sched, pairs, seed, rpc, request);
      && (r.ret == 0 <==> |sched.table| < sched.max) && (r.sent.Some? <==> r.ret == 0)
      && (r.ret != 0 ==> r == CallResult(sched, pairs, seed, -1, None))
      && (r.ret == 0 ==>
            && |r.pairs| == |pairs| + 1 && pairs <= r.pairs
            && var p := r.pairs[|pairs|];
               && r.sent == Some(RpcMsg(RpcRequest, p.asyncid, Encoded(request)))
               && p.crid !in sched.table && r.sched.table == sched.table[p.crid := Ctx(Suspend, Call(rpc, request, p.asyncid))]
               && r.seed == p.asyncid + 1)
  {
    if |sched.table| < sched.max {
      var call := Call(rpc, request, seed);
      CreateKeepsMain(sched, call);
      var created := Create(sched, call).0;
      SwitchInRuns(created, sched.seed);
      YieldReturns(SwitchIn(created, sched.seed).0, sched.seed);
    }
  }

  // ---------- the list of pairs ----------

  lemma {:induction false} FindSkips(pairs: seq<Pair>, i: nat, asyncid: nat)
    requires i <= |pairs| && forall k :: 0 <= k < i ==> pairs[k].asyncid != asyncid
    ensures FindCrid(pairs, asyncid) == FindCrid(pairs[i..], asyncid)
    decreases i
  {
    if i == 0 {
      assert pairs[0..] == pairs;
    } else {
      FindSkips(pairs[1..], i - 1, asyncid);
      assert pairs[1..][i - 1..] == pairs[i..];
    }
  }

  lemma {:induction false} RemoveSkips(pairs: seq<Pair>, i: nat, crid: int)
    requires i <= |pairs| && forall k :: 0 <= k < i ==> pairs[k].crid != crid
    ensures RemoveCrid(pairs, crid) == pairs[..i] + RemoveCrid(pairs[i..], crid)
    decreases i
  {
    if i == 0 {
      assert pairs[0..] == pairs;
    } else {
      RemoveSkips(pairs[1..], i - 1, crid);
      assert pairs[1..][i - 1..] == pairs[i..] && [pairs[0]] + pairs[1..][..i - 1] == pairs[..i];
    }
  }

  lemma {:induction false} DestroySome(sched: Scheduler, pairs: seq<Pair>, i: nat)
    requires i < |pairs|
    ensures DestroyAll(sched, pairs[..i + 1]) == Destroy(DestroyAll(sched, pairs[..i]), pairs[i].crid)
    decreases i
  {
    if i == 0 {
      assert pairs[..1] == [pairs[0]] && pairs[..0] == [];
    } else {
      DestroySome(Destroy(sched, pairs[0].crid), pairs[1..], i - 1);
      assert pairs[1..][..i] == pairs[..i + 1][1..] && pairs[1..][..i - 1] == pairs[..i][1..];
    }
  }

  // ---------- the client's class ----------

  /** asyncid_seed, shared by every stub of the process. */
  class AsyncIds {
    var seed: nat

    constructor ()
      ensures seed == 0
    {
      seed := 0;
    }
  }

  class EasyRpc {
    const id: nat
    const scheduler: CoroutineScheduler<Call>
    const asyncIds: AsyncIds
    var cridList: seq<Pair>

    constructor (id: nat, scheduler: CoroutineScheduler<Call>, asyncIds: AsyncIds)
      ensures cridList == [] && this.id == id && this.scheduler == scheduler && this.asyncIds == asyncIds
    {
      this.id, this.scheduler, this.asyncIds, cridList := id, scheduler, asyncIds, [];
    }

    /** sent is the request handed to the connection; whether that send works out changes nothing
        here. */
    method RpcCall(request: int) returns (ret: int, sent: Option<RpcMsg>)
      requires InMain(scheduler.View())
      modifies this, scheduler, asyncIds
      ensures CallResult(scheduler.View(), cridList, asyncIds.seed, ret, sent)
           == CallOut(old(scheduler.View()), old(cridList), old(asyncIds.seed), id, request)
      ensures InMain(scheduler.View())
    {
      CreateKeepsMain(scheduler.View(), Call(id, request, asyncIds.seed));
      var cid := scheduler.CreateCoroutine(Call(id, request, asyncIds.seed));
      if cid < 0 {
        return -1, None;
      }
      cridList := cridList + [Pair(cid, asyncIds.seed)];
      ghost var created := scheduler.View();
      SwitchInRuns(created, cid);
      YieldReturns(SwitchIn(created, cid).0, cid);
      var switched := scheduler.ResumeBegin(cid);
      // RpcFunction, up to its yield
      sent := Some(RpcMsg(RpcRequest, asyncIds.seed, Encoded(request)));
      asyncIds.seed := asyncIds.seed + 1;
      scheduler.YieldCoroutine();
      // back in RpcCall
      scheduler.ResumeEnd(cid);
      ret := 0;
    }

    method RemoveByCoroutineId(crid: int)
      modifies this
      ensures cridList == RemoveCrid(old(cridList), crid)
    {
      var it := 0;
      while it < |cridList|
        invariant it <= |cridList| && cridList == old(cridList)
        invariant forall k :: 0 <= k < it ==> cridList[k].crid != crid
      {
        if cridList[it].crid == crid {
          RemoveSkips(cridList, it, crid);
          assert cridList[it..][1..] == cridList[it + 1..];
          cridList := cridList[..it] + cridList[it + 1..];
          return;
        }
        it := it + 1;
      }
      RemoveSkips(cridList, it, crid);
      assert cridList[..it] + [] == cridList;
    }

    method GetCoroutineIdxByAsyncId(asyncid: nat) returns (crid: int)
      ensures crid == FindCrid(cridList, asyncid)
    {
      var it := 0;
      while it < |cridList|
        invariant it <= |cridList|
        invariant forall k :: 0 <= k < it ==> cridList[k].asyncid != asyncid
      {
        if cridList[it].asyncid == asyncid {
          FindSkips(cridList, it, asyncid);
          return cridList[it].crid;
        }
        it := it + 1;
      }
      FindSkips(cridList, it, asyncid);
      crid := -1;
    }

    /** buffer is None when the bytes do not unpack to an RPC message. */
    method Resume(buffer: Option<RpcMsg>) returns (ret: int, ran: Option<Callback>)
      requires InMain(scheduler.View())
      modifies this, scheduler
      ensures buffer.None? ==> ret == -1 && ran.None?
      ensures buffer.None? ==> scheduler.View() == old(scheduler.View()) && cridList == old(cridList)
      ensures buffer.Some? ==> ret == 0
      ensures buffer.Some? ==>
          ResumeResult(scheduler.View(), cridList, ran) == WakeUp(old(scheduler.View()), old(cridList), buffer.value)
      ensures InMain(scheduler.View())
    {
      if buffer.None? {
        return -1, None;
      }
      var msg := buffer.value;
      ran := None;
      var crid := GetCoroutineIdxByAsyncId(msg.asyncid);
      var alive := scheduler.CoroutineBeenAlive(crid);
      if alive {
        SwitchInRuns(scheduler.View(), crid);
        FinishReturns(SwitchIn(scheduler.View(), crid).0, crid);
        var switched := scheduler.ResumeBegin(crid);
        // RpcFunction, from its yield to its end
        var call := scheduler.table[crid].arg;
        var status, response := 0, None;
        if msg.kind == RpcError {
          status := -1;
        } else {
          match msg.body
          case Garbled => status := -1;
          case Encoded(content) => response := Some(content);
        }
        ran := Some(Callback(call, status, response, msg));
        scheduler.ScheduleFunctionEnd();
        // back in Resume
        scheduler.ResumeEnd(crid);
      }
      alive := scheduler.CoroutineBeenAlive(crid);
      if !alive {
        RemoveByCoroutineId(crid);
      }
      ret := 0;
    }

    /** The destructor. */
    method CleanUp()
      modifies this, scheduler
      ensures scheduler.View() == DestroyAll(old(scheduler.View()), old(cridList)) && cridList == []
    {
      var it := 0;
      while it < |cridList|
        invariant it <= |cridList| && cridList == old(cridList)
        invariant scheduler.View() == DestroyAll(old(scheduler.View()), cridList[..it])
      {
        DestroySome(old(scheduler.View()), cridList, it);
        scheduler.DestroyCoroutine(cridList[it].crid);
        it := it + 1;
      }
      assert cridList[..it] == cridList;
      cridList := [];
    }
  }

  // ---------- the server's class ----------

  /** A call being served: what a closure holds until it is done or cancelled. */
  class EasyRpcClosure {
    var net: Option<nat>
    var asyncId: nat
    var req: Option<int>
    var rsp: Option<Body>
    var isDone: bool

    constructor ()
      ensures net.None? && req.None? && rsp.None? && !isDone
    {
      net, asyncId, req, rsp, isDone := None, 0, None, None, false;
    }

    method Set(net: Option<nat>, asyncid: nat, req: Option<int>, rsp: Option<Body>) returns (ret: int)
      modifies this
      ensures isDone == old(isDone)
      ensures if net.None? || req.None? || rsp.None? then
          ret == -1 && (this.net, asyncId, this.req, this.rsp) == old((this.net, asyncId, this.req, this.rsp))
        else
          ret == 0 && (this.net, asyncId, this.req, this.rsp) == (net, asyncid, req, rsp)
    {
      if net.None? || req.None? || rsp.None? {
        return -1;
      }
      asyncId, this.net, this.req, this.rsp := asyncid, net, req, rsp;
      ret := 0;
    }

    /** The reply carries the id of the call; a closure answers once, whichever of Done and Cancel
        comes first.  fits: the response's type name is within the limit. */
    method Done(fits: bool) returns (sent: Option<RpcMsg>)
      modifies this
      ensures isDone && req.None? == (old(req.None?) || old(Armed())) && !Armed()
      ensures sent == if old(Armed()) && fits then Some(RpcMsg(RpcResponse, old(asyncId), old(rsp.value))) else None
    {
      sent := None;
      if net.Some? && rsp.Some? && req.Some? {
        if fits {
          sent := Some(RpcMsg(RpcResponse, asyncId, rsp.value));
        }
        rsp, req := None, None;
      }
      isDone := true;
    }

    method Cancel() returns (sent: Option<RpcMsg>)
      modifies this
      ensures isDone && !Armed()
      ensures sent == if old(Armed()) then Some(RpcMsg(RpcError, old(asyncId), Garbled)) else None
    {
      sent := None;
      if net.Some? && rsp.Some? && req.Some? {
        sent := Some(RpcMsg(RpcError, asyncId, Garbled));
        rsp, req := None, None;
      }
      isDone := true;
    }

    ghost predicate Armed()
      reads this
    {
      net.Some? && rsp.Some? && req.Some?
    }
  }
}
