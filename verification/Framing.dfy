/** Length-prefixed frames over a byte stream: how EasyNet writes them and how the read
    callbacks of the framework cut a fragmented stream back into payloads. */
module Framing {
  import opened Bytes

  /** sizeof(uint32_t): the length field, which counts itself. */
  const HEADER: nat := 4

  /** The header is a 32-bit integer: a longer message wraps it around. */
  function HeaderOf(payload: seq<byte>): (s: seq<byte>)
    ensures |s| == HEADER
  {
    BigEndian(|payload| + HEADER, HEADER)
  }

  function Frame(payload: seq<byte>): (s: seq<byte>)
    ensures |s| == HEADER + |payload|
  {
    HeaderOf(payload) + payload
  }

  /** Payloads that are written as frames, an empty one is dropped without writing anything, and
      whose header reads back as a positive `int`. */
  ghost predicate Framable(ps: seq<seq<byte>>) {
    forall k :: 0 <= k < |ps| ==> 0 < |ps[k]| && |ps[k]| + HEADER < TWO_31
  }

  function FrameAll(ps: seq<seq<byte>>): (s: seq<byte>) {
    if ps == [] then [] else Frame(ps[0]) + FrameAll(ps[1..])
  }

  /** The length field at the front, ntohl. */
  function Header(s: seq<byte>): (n: nat)
    requires |s| >= HEADER
    ensures n < TWO_32
  {
    FourOctets();
    FromBigEndian(s[..HEADER])
  }

  /** GetMsgLength, as the `size_t` the callers keep it in: the length field read as a signed
      32-bit integer and sign-extended to 64 bits. */
  function MsgLength(s: seq<byte>): (n: nat)
    ensures n < TWO_64
  {
    if |s| < HEADER then 0
    else
      var n := Header(s);
      if n < TWO_31 then n else n + (TWO_64 - TWO_32)
  }

  /** What the callback hands to the application: a payload, or for a length field below 4 a
      size that has wrapped around. */
  datatype Delivery = Payload(bytes: seq<byte>) | Wrapped(size: nat)

  function DeliveryOf(s: seq<byte>): (d: Delivery)
    requires 0 < MsgLength(s) <= |s|
  {
    if MsgLength(s) >= HEADER then Payload(s[HEADER..MsgLength(s)])
    else Wrapped(TWO_64 + MsgLength(s) - HEADER)
  }

  predicate HasFrame(s: seq<byte>) {
    0 < MsgLength(s) <= |s|
  }

  /** The length field counts itself.  A frame is there as soon as it is 1 or more, as a signed
      32-bit integer, and no more than what has come; less than 4 it leaves a wrapped size. */
  lemma HasFrameExactly(s: seq<byte>)
    requires |s| < TWO_63
    ensures HasFrame(s) <==> |s| >= HEADER && 0 < Header(s) < TWO_31 && Header(s) <= |s|
    ensures HasFrame(s) ==>
        DeliveryOf(s) == if Header(s) < HEADER then Wrapped(TWO_64 - (HEADER - Header(s))) else Payload(s[HEADER..Header(s)])
  {
  }

  /** The frames at the front of s, and the octets they take. */
  function Deliveries(s: seq<byte>): (ds: seq<Delivery>)
    decreases |s|
  {
    if HasFrame(s) then [DeliveryOf(s)] + Deliveries(s[MsgLength(s)..]) else []
  }

  function Used(s: seq<byte>): (n: nat)
    ensures n <= |s|
    decreases |s|
  {
    if HasFrame(s) then MsgLength(s) + Used(s[MsgLength(s)..]) else 0
  }

  /** The callback looks at no more than its receive buffer holds. */
  function Window(s: seq<byte>, cap: nat): (w: seq<byte>)
    ensures w <= s && |w| <= cap
  {
    if |s| <= cap then s else s[..cap]
  }

  // ---------- one connection's end ----------

  datatype NetState = Init | Connecting | Established | Failed | BeenClosed

  const EASY_NET_OK := 0
  const EASY_NET_ERR_NOT_YET_ESTABLISHED := -1
  const EASY_NET_ERR_ESTABLISH_FAILED := -2
  const EASY_NET_ERR_SEND_ERROR := -3

  class EasyNet {
    var state: NetState
    var input: seq<byte>        // the event buffer the kernel fills
    var output: seq<byte>       // the event buffer the kernel drains
    var currPkgCount: nat
    var currTrafficBytes: nat
    var lastActive: int

    constructor (state: NetState)
      ensures this.state == state && input == [] && output == []
      ensures currPkgCount == 0 && currTrafficBytes == 0 && lastActive == 0
    {
      this.state, input, output := state, [], [];
      currPkgCount, currTrafficBytes, lastActive := 0, 0, 0;
    }

    /** Writes one frame in two parts, header first; nothing at all for an empty message, and
        nothing when the connection is not established.  headerOk and bodyOk say whether the two
        writes into the buffer work. */
    method Send(msg: seq<byte>, headerOk: bool, bodyOk: bool) returns (ret: int)
      modifies this`output
      ensures ret == if msg == [] then EASY_NET_OK
                     else if state == Failed then EASY_NET_ERR_ESTABLISH_FAILED
                     else if state != Established then EASY_NET_ERR_NOT_YET_ESTABLISHED
                     else if headerOk && bodyOk then EASY_NET_OK
                     else EASY_NET_ERR_SEND_ERROR
      ensures output == old(output) + if msg == [] || state != Established || !headerOk then []
                                      else if bodyOk then Frame(msg)
                                      else HeaderOf(msg)
    {
      if msg == [] {
        return EASY_NET_OK;
      }
      if state != Established {
        if state != Failed {
          return EASY_NET_ERR_NOT_YET_ESTABLISHED;
        } else {
          return EASY_NET_ERR_ESTABLISH_FAILED;
        }
      }
      if !headerOk {
        return EASY_NET_ERR_SEND_ERROR;
      }
      output := output + BigEndian(|msg| + HEADER, HEADER);
      if !bodyOk {
        return EASY_NET_ERR_SEND_ERROR;
      }
      output := output + msg;
      return EASY_NET_OK;
    }

    /** The read callback: every complete frame in the receive buffer is delivered in order, the
        octets of those frames are drained, and the two rate counters grow by what was taken. */
    method OnFrontEndMsg(cap: nat, now: int) returns (delivered: seq<Delivery>)
      modifies this`input, this`currPkgCount, this`currTrafficBytes, this`lastActive
      ensures delivered == Deliveries(Window(old(input), cap))
      ensures input == old(input)[Used(Window(old(input), cap))..]
      ensures currPkgCount == old(currPkgCount) + |delivered|
      ensures currTrafficBytes == old(currTrafficBytes) + Used(Window(old(input), cap))
      ensures lastActive == now
    {
      var buffer := Window(input, cap);
      delivered := [];
      var elapsed: nat := 0;
      while |buffer| > elapsed
        invariant elapsed <= |buffer|
        invariant delivered + Deliveries(buffer[elapsed..]) == Deliveries(buffer)
        invariant elapsed + Used(buffer[elapsed..]) == Used(buffer)
        invariant currPkgCount == old(currPkgCount) + |delivered|
        invariant input == old(input) && currTrafficBytes == old(currTrafficBytes)
      {
        var rest := buffer[elapsed..];
        var msglen := MsgLength(rest);
        if msglen == 0 || msglen > |rest| {
          break;
        }
        OneMore(delivered, buffer, rest);
        delivered := delivered + [DeliveryOf(rest)];
        currPkgCount := currPkgCount + 1;
        elapsed := elapsed + msglen;
        assert buffer[elapsed..] == rest[msglen..];
      }
      assert !HasFrame(buffer[elapsed..]);
      input := input[elapsed..];
      currTrafficBytes := currTrafficBytes + elapsed;
      lastActive := now;
    }
  }

  lemma OneMore(done: seq<Delivery>, buffer: seq<byte>, rest: seq<byte>)
    requires HasFrame(rest) && done + Deliveries(rest) == Deliveries(buffer)
    ensures done + [DeliveryOf(rest)] + Deliveries(rest[MsgLength(rest)..]) == Deliveries(buffer)
  {
  }

  // ---------- cutting a stream of written frames ----------

  function Payloads(ps: seq<seq<byte>>): (ds: seq<Delivery>)
    ensures |ds| == |ps|
  {
    if ps == [] then [] else [Payload(ps[0])] + Payloads(ps[1..])
  }

  lemma FrameReadsBack(p: seq<byte>, rest: seq<byte>)
    requires 0 < |p| && |p| + HEADER < TWO_31
    ensures HasFrame(Frame(p) + rest) && MsgLength(Frame(p) + rest) == |Frame(p)|
    ensures DeliveryOf(Frame(p) + rest) == Payload(p)
    ensures (Frame(p) + rest)[|Frame(p)|..] == rest
  {
    var s := Frame(p) + rest;
    FourOctets();
    BigEndianRoundTrip(|p| + HEADER, HEADER);
    assert s[..HEADER] == HeaderOf(p);
    assert s[HEADER..|Frame(p)|] == p;
  }

  /** A proper piece of a frame is not mistaken for a frame. */
  lemma PartialFrameWaits(p: seq<byte>, s: seq<byte>)
    requires 0 < |p| && |p| + HEADER < TWO_31 && s <= Frame(p) && s != Frame(p)
    ensures !HasFrame(s)
  {
    if |s| >= HEADER {
      FrameReadsBack(p, []);
      assert Frame(p) + [] == Frame(p);
      assert s[..HEADER] == Frame(p)[..HEADER];
    }
  }

  /** How many of the frames of ps lie wholly within their first n octets. */
  function Whole(ps: seq<seq<byte>>, n: nat): (k: nat)
    ensures k <= |ps|
    decreases |ps|
  {
    if ps == [] || |Frame(ps[0])| > n then 0 else 1 + Whole(ps[1..], n - |Frame(ps[0])|)
  }

  lemma {:induction false} FrameAllConcat(ps: seq<seq<byte>>, qs: seq<seq<byte>>)
    ensures FrameAll(ps + qs) == FrameAll(ps) + FrameAll(qs)
    decreases |ps|
  {
    if ps == [] {
      assert ps + qs == qs;
    } else {
      assert (ps + qs)[1..] == ps[1..] + qs;
      FrameAllConcat(ps[1..], qs);
      assert Frame(ps[0]) + (FrameAll(ps[1..]) + FrameAll(qs)) == Frame(ps[0]) + FrameAll(ps[1..]) + FrameAll(qs);
    }
  }

  lemma FrameAllSplit(ps: seq<seq<byte>>, k: nat)
    requires k <= |ps|
    ensures FrameAll(ps) == FrameAll(ps[..k]) + FrameAll(ps[k..])
  {
    assert ps == ps[..k] + ps[k..];
    FrameAllConcat(ps[..k], ps[k..]);
  }

  lemma {:induction false} PayloadsConcat(ps: seq<seq<byte>>, qs: seq<seq<byte>>)
    ensures Payloads(ps + qs) == Payloads(ps) + Payloads(qs)
    decreases |ps|
  {
    if ps == [] {
      assert ps + qs == qs;
    } else {
      assert (ps + qs)[1..] == ps[1..] + qs;
      PayloadsConcat(ps[1..], qs);
    }
  }

  lemma FrameDelivers(p: seq<byte>, rest: seq<byte>)
    requires 0 < |p| && |p| + HEADER < TWO_31
    ensures Deliveries(Frame(p) + rest) == [Payload(p)] + Deliveries(rest)
    ensures Used(Frame(p) + rest) == |Frame(p)| + Used(rest)
  {
    FrameReadsBack(p, rest);
  }

  /** A header whose payload could not be written swallows as many octets of what comes after it. */
  lemma StrayHeaderSwallows(p: seq<byte>, s: seq<byte>)
    requires 0 < |p| <= |s| && |p| + HEADER < TWO_31
    ensures Deliveries(HeaderOf(p) + s) == [Payload(s[..|p|])] + Deliveries(s[|p|..])
  {
    Rejoin(HeaderOf(p), s, |p|);
    SameHeader(p, s[..|p|]);
    FrameDelivers(s[..|p|], s[|p|..]);
  }

  lemma Rejoin(h: seq<byte>, s: seq<byte>, n: nat)
    requires n <= |s|
    ensures h + s == (h + s[..n]) + s[n..]
  {
  }

  lemma SameHeader(p: seq<byte>, q: seq<byte>)
    requires |p| == |q|
    ensures HeaderOf(p) + q == Frame(q)
  {
  }

  /** Reading any first part of a written stream delivers exactly the payloads that have come in
      whole, and uses exactly their octets. */
  lemma {:induction false} CutsAtFrames(ps: seq<seq<byte>>, s: seq<byte>)
    requires Framable(ps) && s <= FrameAll(ps)
    ensures Deliveries(s) == Payloads(ps[..Whole(ps, |s|)])
    ensures s[..Used(s)] == FrameAll(ps[..Whole(ps, |s|)])
    decreases |ps|
  {
    if ps == [] {
      assert s == [];
    } else {
      var p, qs := ps[0], ps[1..];
      var f := Frame(p);
      if |f| > |s| {
        assert s == f[..|s|];
        PartialFrameWaits(p, s);
      } else {
        var rest := s[|f|..];
        var k := Whole(qs, |rest|);
        assert Whole(ps, |s|) == k + 1;
        assert s == f + rest;
        assert rest <= FrameAll(qs) by {
          assert FrameAll(ps)[|f|..] == FrameAll(qs);
        }
        CutsAtFrames(qs, rest);
        CutsOneMore(ps, s, rest, k);
      }
    }
  }

  lemma CutsOneMore(ps: seq<seq<byte>>, s: seq<byte>, rest: seq<byte>, k: nat)
    requires ps != [] && 0 < |ps[0]| && |ps[0]| + HEADER < TWO_31
    requires k <= |ps| - 1 && s == Frame(ps[0]) + rest
    requires Deliveries(rest) == Payloads(ps[1..][..k]) && rest[..Used(rest)] == FrameAll(ps[1..][..k])
    ensures Deliveries(s) == Payloads(ps[..k + 1]) && s[..Used(s)] == FrameAll(ps[..k + 1])
  {
    FrameDelivers(ps[0], rest);
    assert ps[..k + 1][1..] == ps[1..][..k];
    assert s[..Used(s)] == Frame(ps[0]) + rest[..Used(rest)];
  }

  // ---------- any split of the stream into arrivals and callbacks ----------

  datatype Event = Arrive(bytes: seq<byte>) | Callback

  datatype Rx = Rx(arrived: seq<byte>, input: seq<byte>, delivered: seq<Delivery>)

  function Step(r: Rx, e: Event, cap: nat): Rx {
    match e
    case Arrive(bytes) => Rx(r.arrived + bytes, r.input + bytes, r.delivered)
    case Callback =>
      var w := Window(r.input, cap);
      Rx(r.arrived, r.input[Used(w)..], r.delivered + Deliveries(w))
  }

  function Run(r: Rx, es: seq<Event>, cap: nat): Rx
    decreases |es|
  {
    if es == [] then r else Run(Step(r, es[0], cap), es[1..], cap)
  }

  const START := Rx([], [], [])

  /** Delivered payloads are the first k written, and with the octets still waiting they make up
      exactly what has arrived. */
  ghost predicate InStep(ps: seq<seq<byte>>, r: Rx, k: nat)
  {
    && k <= |ps|
    && r.arrived <= FrameAll(ps)
    && r.delivered == Payloads(ps[..k])
    && r.arrived == FrameAll(ps[..k]) + r.input
  }

  /** How many payloads have been delivered after one more callback. */
  function Deliverable(ps: seq<seq<byte>>, r: Rx, k: nat, cap: nat): nat
    requires k <= |ps|
  {
    k + Whole(ps[k..], |Window(r.input, cap)|)
  }

  lemma CallbackInStep(ps: seq<seq<byte>>, r: Rx, k: nat, cap: nat)
    requires Framable(ps) && InStep(ps, r, k)
    ensures InStep(ps, Step(r, Callback, cap), Deliverable(ps, r, k, cap))
  {
    var w := Window(r.input, cap);
    var n := Whole(ps[k..], |w|);
    assert Deliveries(w) == Payloads(ps[k..][..n]) && w[..Used(w)] == FrameAll(ps[k..][..n]) by {
      InputIsRest(ps, r, k);
      CutsAtFrames(ps[k..], w);
    }
    TakeMore(ps, k, n);
    CallbackMoves(ps, r, k, n, w);
  }

  lemma CallbackMoves(ps: seq<seq<byte>>, r: Rx, k: nat, n: nat, w: seq<byte>)
    requires InStep(ps, r, k) && k + n <= |ps| && w <= r.input
    requires r.delivered + Deliveries(w) == Payloads(ps[..k + n])
    requires FrameAll(ps[..k]) + w[..Used(w)] == FrameAll(ps[..k + n])
    ensures InStep(ps, Rx(r.arrived, r.input[Used(w)..], r.delivered + Deliveries(w)), k + n)
  {
    Regroup(FrameAll(ps[..k]), w[..Used(w)], r.input, Used(w));
  }

  lemma TakeMore(ps: seq<seq<byte>>, k: nat, n: nat)
    requires k + n <= |ps|
    ensures FrameAll(ps[..k + n]) == FrameAll(ps[..k]) + FrameAll(ps[k..][..n])
    ensures Payloads(ps[..k + n]) == Payloads(ps[..k]) + Payloads(ps[k..][..n])
  {
    assert ps[..k] + ps[k..][..n] == ps[..k + n];
    FrameAllConcat(ps[..k], ps[k..][..n]);
    PayloadsConcat(ps[..k], ps[k..][..n]);
  }

  lemma Regroup(a: seq<byte>, b: seq<byte>, s: seq<byte>, used: nat)
    requires used <= |s| && s[..used] == b
    ensures a + s == a + b + s[used..]
  {
  }

  lemma InputIsRest(ps: seq<seq<byte>>, r: Rx, k: nat)
    requires InStep(ps, r, k)
    ensures r.input <= FrameAll(ps[k..])
    ensures r.arrived == FrameAll(ps) ==> r.input == FrameAll(ps[k..])
  {
    FrameAllSplit(ps, k);
    assert r.arrived[|FrameAll(ps[..k])|..] == r.input;
    assert FrameAll(ps)[|FrameAll(ps[..k])|..] == FrameAll(ps[k..]);
  }

  lemma {:induction false} RunInStep(ps: seq<seq<byte>>, r: Rx, es: seq<Event>, cap: nat, k: nat) returns (n: nat)
    requires Framable(ps) && InStep(ps, r, k) && Run(r, es, cap).arrived <= FrameAll(ps)
    ensures InStep(ps, Run(r, es, cap), n)
    decreases |es|
  {
    if es == [] {
      n := k;
    } else {
      var next := Step(r, es[0], cap);
      ArrivedGrows(next, es[1..], cap);
      var k' := k;
      match es[0] {
        case Arrive(bytes) =>
          assert next.arrived == FrameAll(ps[..k]) + next.input;
        case Callback =>
          CallbackInStep(ps, r, k, cap);
          k' := Deliverable(ps, r, k, cap);
      }
      n := RunInStep(ps, next, es[1..], cap, k');
    }
  }

  lemma {:induction false} ArrivedGrows(r: Rx, es: seq<Event>, cap: nat)
    ensures r.arrived <= Run(r, es, cap).arrived
    decreases |es|
  {
    if es != [] {
      ArrivedGrows(Step(r, es[0], cap), es[1..], cap);
    }
  }

  /** Safety for every list of payloads, every split of their stream into arrivals, callbacks
      anywhere in between and any buffer size. */
  lemma FragmentationIsHarmless(ps: seq<seq<byte>>, es: seq<Event>, cap: nat) returns (k: nat)
    requires Framable(ps) && Run(START, es, cap).arrived <= FrameAll(ps)
    ensures InStep(ps, Run(START, es, cap), k)
  {
    assert InStep(ps, START, 0) by {
      assert ps[..0] == [];
    }
    k := RunInStep(ps, START, es, cap, 0);
  }

  // ---------- progress, and the one thing that stops it ----------

  lemma {:induction false} NothingWholeRemains(s: seq<byte>)
    ensures !HasFrame(s[Used(s)..])
    decreases |s|
  {
    if HasFrame(s) {
      NothingWholeRemains(s[MsgLength(s)..]);
      assert s[Used(s)..] == s[MsgLength(s)..][Used(s[MsgLength(s)..])..];
    }
  }

  /** When the waiting octets fit the receive buffer, a callback leaves no complete frame. */
  lemma CallbackEmptiesTheFront(r: Rx, cap: nat)
    requires |r.input| <= cap
    ensures !HasFrame(Step(r, Callback, cap).input)
  {
    NothingWholeRemains(r.input);
  }

  /** A callback delivers the complete frame at the front if and only if that frame, and a whole
      header, fits the receive buffer; when not, the callback changes nothing, however often it
      runs. */
  lemma FrontFrameIsDelivered(r: Rx, cap: nat)
    requires HasFrame(r.input)
    ensures HEADER <= cap && MsgLength(r.input) <= cap ==> r.delivered < Step(r, Callback, cap).delivered
    ensures HEADER > cap || MsgLength(r.input) > cap ==> Step(r, Callback, cap) == r
  {
    var w := Window(r.input, cap);
    if |w| >= HEADER {
      assert w[..HEADER] == r.input[..HEADER];
    }
    if HEADER <= cap && MsgLength(r.input) <= cap {
      assert HasFrame(w);
      assert Deliveries(w) != [];
    } else {
      assert !HasFrame(w);
      assert r.delivered + [] == r.delivered;
    }
  }

  predicate AllFit(ps: seq<seq<byte>>, cap: nat)
  {
    forall k :: 0 <= k < |ps| ==> |ps[k]| + HEADER <= cap
  }

  function Callbacks(r: Rx, n: nat, cap: nat): Rx
    decreases n
  {
    if n == 0 then r else Callbacks(Step(r, Callback, cap), n - 1, cap)
  }

  /** Payloads before the first whose frame outgrows the receive buffer. */
  function FirstTooBig(ps: seq<seq<byte>>, cap: nat): (k: nat)
    ensures k <= |ps|
    ensures forall j :: 0 <= j < k ==> |ps[j]| + HEADER <= cap
    ensures k < |ps| ==> |ps[k]| + HEADER > cap
  {
    if ps == [] || |ps[0]| + HEADER > cap then 0 else 1 + FirstTooBig(ps[1..], cap)
  }

  /** With the stream all in, a callback that still has a fitting frame at the front delivers it. */
  lemma CallbackAdvances(ps: seq<seq<byte>>, r: Rx, k: nat, cap: nat)
    requires Framable(ps) && InStep(ps, r, k) && r.arrived == FrameAll(ps) && k <= FirstTooBig(ps, cap)
    ensures var k' := Deliverable(ps, r, k, cap);
      k <= k' <= FirstTooBig(ps, cap) && (k < FirstTooBig(ps, cap) ==> k < k')
  {
    InputIsRest(ps, r, k);
    var w := Window(r.input, cap);
    if k < |ps| {
      assert ps[k..][0] == ps[k];
      assert |FrameAll(ps[k..])| >= |Frame(ps[k])|;
    }
    WholeWithin(ps[k..], |w|, FirstTooBig(ps, cap) - k, cap);
  }

  lemma {:induction false} WholeWithin(ps: seq<seq<byte>>, n: nat, j: nat, cap: nat)
    requires n <= cap && j <= |ps| && (j < |ps| ==> |ps[j]| + HEADER > cap)
    ensures Whole(ps, n) <= j
    decreases |ps|
  {
    if ps != [] && |Frame(ps[0])| <= n {
      WholeWithin(ps[1..], n - |Frame(ps[0])|, j - 1, cap);
    }
  }

  /** Liveness with its exact condition: once everything has arrived, as many callbacks as there
      are payloads deliver every payload before the first whose frame outgrows the receive
      buffer, and no number of callbacks delivers more.  So all of them are delivered if and
      only if every frame fits. */
  lemma {:induction false} EverythingFittingIsDelivered(ps: seq<seq<byte>>, r: Rx, k: nat, n: nat, cap: nat)
    requires Framable(ps) && InStep(ps, r, k) && r.arrived == FrameAll(ps) && k <= FirstTooBig(ps, cap)
    requires n >= FirstTooBig(ps, cap) - k
    ensures Callbacks(r, n, cap).delivered == Payloads(ps[..FirstTooBig(ps, cap)])
    ensures Callbacks(r, n, cap).delivered == Payloads(ps) <==> AllFit(ps, cap)
    decreases n
  {
    var stop := FirstTooBig(ps, cap);
    if n == 0 {
      if stop == |ps| {
        assert ps[..stop] == ps;
      } else {
        assert |Payloads(ps[..stop])| < |Payloads(ps)|;
      }
    } else {
      CallbackInStep(ps, r, k, cap);
      CallbackAdvances(ps, r, k, cap);
      EverythingFittingIsDelivered(ps, Step(r, Callback, cap), Deliverable(ps, r, k, cap), n - 1, cap);
    }
  }

  /** The octets a callback drains are the payloads plus four for each of them: the traffic
      counter against the packet counter. */
  lemma {:induction false} TrafficIsPayloadPlusHeaders(ps: seq<seq<byte>>)
    ensures |FrameAll(ps)| == TotalLength(ps) + HEADER * |ps|
    decreases |ps|
  {
    if ps != [] {
      TrafficIsPayloadPlusHeaders(ps[1..]);
    }
  }

  function TotalLength(ps: seq<seq<byte>>): nat {
    if ps == [] then 0 else |ps[0]| + TotalLength(ps[1..])
  }
}
