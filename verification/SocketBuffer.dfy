/** The client's socket: two byte buffers over arrays, filled and emptied in place by partial
    sends and receives.  Each is shown to be a byte queue; the bytes the operating system moved
    are parameters. */
module SocketBuffer {
  import opened Bytes
  import opened Framing

  class RingBuffer {
    const buff: array<byte>
    var begin: nat
    var end: nat

    constructor (size: nat)
      ensures fresh(buff) && buff.Length == size && begin == 0 && end == 0
    {
      buff := new byte[size](_ => 0);
      begin, end := 0, 0;
    }

    ghost predicate Valid()
      reads this
    {
      begin <= end <= buff.Length
    }

    /** The queued bytes. */
    function Data(): (s: seq<byte>)
      requires Valid()
      reads this, buff
      ensures |s| == end - begin
    {
      buff[begin..end]
    }

    function Available(): nat
      requires Valid()
      reads this
    {
      buff.Length - end
    }

    /** Moves the queued bytes to the front. */
    method Recycle()
      requires Valid()
      modifies this, buff
      ensures Valid() && Data() == old(Data()) && begin == 0
    {
      if begin > 0 {
        if end > begin {
          forall k | 0 <= k < end - begin {
            buff[k] := buff[begin + k];
          }
        }
        end := end - begin;
        begin := 0;
      }
    }

    /** memcpy to the back. */
    method Append(s: seq<byte>)
      requires Valid() && |s| <= Available()
      modifies this`end, buff
      ensures Valid() && begin == old(begin) && Data() == old(Data()) + s
    {
      forall k | 0 <= k < |s| {
        buff[end + k] := s[k];
      }
      end := end + |s|;
    }
  }

  datatype SocketState =
    | NetInited | NetConnecting | NetConnected | NetSendFailed | NetRecvFailed | NetPeerClosed | NetAssertFail

  const NORMAL := 0
  const INVLD_ARGUMENT := -1
  const SEND_BUFF_FULL := -50
  const NOT_CONNECTED := -102
  const SEND_FAILED := -201
  const SEND_UNCOMPLETED := -202
  const RECV_FAILED := -301
  const PEER_CLOSED := -302
  const ASSERT_FAILED := -1000

  /** What send() and recv() did. */
  datatype Sent = SendWouldBlock | SendError | Wrote(n: nat)
  datatype Received = RecvWouldBlock | RecvError | Got(bytes: seq<byte>)

  function Flatten(iov: seq<seq<byte>>): (s: seq<byte>) {
    if iov == [] then [] else iov[0] + Flatten(iov[1..])
  }

  lemma {:induction false} FlattenSnoc(iov: seq<seq<byte>>, k: nat)
    requires k < |iov|
    ensures Flatten(iov[..k + 1]) == Flatten(iov[..k]) + iov[k]
    decreases |iov|
  {
    if k == 0 {
      assert iov[..1][1..] == [];
    } else {
      assert iov[..k + 1][1..] == iov[1..][..k] && iov[..k][1..] == iov[1..][..k - 1];
      FlattenSnoc(iov[1..], k - 1);
      assert iov[0] + (Flatten(iov[1..][..k - 1]) + iov[k]) == iov[0] + Flatten(iov[1..][..k - 1]) + iov[k];
    }
  }

  lemma {:induction false} FlattenPrefix(iov: seq<seq<byte>>, k: nat)
    requires k <= |iov|
    ensures |Flatten(iov[..k])| <= |Flatten(iov)|
    decreases |iov| - k
  {
    if k == |iov| {
      assert iov[..k] == iov;
    } else {
      FlattenSnoc(iov, k);
      FlattenPrefix(iov, k + 1);
    }
  }

  /** GetPkgLen: nothing until there is more than a header, then the header as an `int`. */
  function PkgLen(s: seq<byte>): (n: int) {
    if |s| <= HEADER then 0
    else
      var n := Header(s);
      if n < TWO_31 then n else n - TWO_32
  }

  predicate HasPkg(s: seq<byte>) {
    0 < PkgLen(s) <= |s|
  }

  class TcpSocketUtil {
    var state: SocketState
    const sendBuf: RingBuffer
    const recvBuf: RingBuffer

    // Everything that went through since the last reset.
    ghost var pushed: seq<byte>
    ghost var wired: seq<byte>
    ghost var received: seq<byte>
    ghost var popped: seq<byte>

    constructor (size: nat)
      ensures Valid() && fresh(Repr()) && state == NetInited
      ensures sendBuf.buff.Length == size && recvBuf.buff.Length == size
      ensures pushed == [] && wired == [] && received == [] && popped == []
    {
      state := NetInited;
      sendBuf := new RingBuffer(size);
      recvBuf := new RingBuffer(size);
      pushed, wired, received, popped := [], [], [], [];
    }

    ghost function Repr(): set<object> {
      {this, sendBuf, sendBuf.buff, recvBuf, recvBuf.buff}
    }

    /** Both buffers are queues: what left, followed by what is queued, is what came in.  The send
        queue always starts at the front of its array, so it refuses data only when that data
        does not fit beside what is queued. */
    ghost predicate Valid()
      reads Repr()
    {
      && sendBuf != recvBuf && sendBuf.buff != recvBuf.buff
      && sendBuf.Valid() && recvBuf.Valid()
      && sendBuf.begin == 0
      && wired + sendBuf.Data() == pushed
      && popped + recvBuf.Data() == received
    }

    method Reset()
      requires Valid()
      modifies Repr()
      ensures Valid() && state == NetInited
      ensures pushed == [] && wired == [] && received == [] && popped == []
    {
      sendBuf.begin, sendBuf.end, recvBuf.begin, recvBuf.end := 0, 0, 0, 0;
      state := NetInited;
      pushed, wired, received, popped := [], [], [], [];
    }

    method PushvToSendQ(iov: seq<seq<byte>>) returns (ret: int)
      requires Valid()
      modifies this, sendBuf, sendBuf.buff
      ensures Valid() && state == old(state)
      ensures wired == old(wired) && received == old(received) && popped == old(popped)
      ensures ret == if iov == [] then INVLD_ARGUMENT
                     else if |old(sendBuf.Data())| + |Flatten(iov)| > sendBuf.buff.Length then SEND_BUFF_FULL
                     else NORMAL
      ensures pushed == old(pushed) + if ret == NORMAL then Flatten(iov) else []
    {
      if iov == [] {
        return INVLD_ARGUMENT;
      }
      var total: nat := 0;
      var i: nat := 0;
      while i < |iov|
        invariant i <= |iov| && total == |Flatten(iov[..i])|
        invariant unchanged(this, sendBuf, sendBuf.buff)
      {
        FlattenSnoc(iov, i);
        if |iov[i]| != 0 {
          total := total + |iov[i]|;
        }
        i := i + 1;
      }
      assert iov[..i] == iov;
      if total > sendBuf.Available() {
        return SEND_BUFF_FULL;
      }
      i := 0;
      while i < |iov|
        invariant i <= |iov|
        invariant Valid() && state == old(state)
        invariant wired == old(wired) && received == old(received) && popped == old(popped)
        invariant pushed == old(pushed) + Flatten(iov[..i])
        invariant |Flatten(iov)| == total
        invariant |sendBuf.Data()| == |old(sendBuf.Data())| + |Flatten(iov[..i])|
      {
        FlattenSnoc(iov, i);
        FlattenPrefix(iov, i + 1);
        if |iov[i]| != 0 {
          sendBuf.Append(iov[i]);
          pushed := pushed + iov[i];
        }
        i := i + 1;
      }
      assert iov[..i] == iov;
      return NORMAL;
    }

    method Send(o: Sent) returns (ret: int)
      requires Valid() && (o.Wrote? ==> o.n <= |sendBuf.Data()|)
      modifies this, sendBuf, sendBuf.buff
      ensures Valid() && pushed == old(pushed) && received == old(received) && popped == old(popped)
      ensures old(state) in {NetConnected, NetRecvFailed, NetPeerClosed} && o.Wrote?
        ==> wired == old(wired) + old(sendBuf.Data())[..o.n] && state == old(state)
      ensures old(state) !in {NetConnected, NetRecvFailed, NetPeerClosed} || !o.Wrote? ==> wired == old(wired)
      ensures old(state) in {NetConnected, NetRecvFailed, NetPeerClosed} ==>
        ret == if old(sendBuf.Data()) == [] then NORMAL
               else if o == SendWouldBlock then SEND_UNCOMPLETED
               else if o == SendError then SEND_FAILED
               else if o.n == 0 || o.n == |old(sendBuf.Data())| then NORMAL else SEND_UNCOMPLETED
      ensures old(state) == NetSendFailed ==> ret == NORMAL
      ensures old(state) == NetAssertFail ==> ret == ASSERT_FAILED
      ensures old(state) in {NetInited, NetConnecting} ==> ret == NOT_CONNECTED
      ensures state == if old(state) in {NetConnected, NetRecvFailed, NetPeerClosed} && o == SendError && old(sendBuf.Data()) != []
                       then NetSendFailed else old(state)
    {
      if state == NetAssertFail {
        return ASSERT_FAILED;
      }
      if state == NetSendFailed {
        return NORMAL;
      } else if state != NetConnected && state != NetRecvFailed && state != NetPeerClosed {
        return NOT_CONNECTED;
      }
      ghost var queued := sendBuf.Data();
      if |sendBuf.Data()| == 0 {
        return NORMAL;
      }
      match o {
        case SendWouldBlock =>
          return SEND_UNCOMPLETED;
        case SendError =>
          state := NetSendFailed;
          return SEND_FAILED;
        case Wrote(n) =>
          if n == 0 {
            return NORMAL;
          }
          ret := if n < |sendBuf.Data()| then SEND_UNCOMPLETED else NORMAL;
          sendBuf.begin := sendBuf.begin + n;
          assert sendBuf.Data() == queued[n..];
          sendBuf.Recycle();
          wired := wired + queued[..n];
          assert queued[..n] + queued[n..] == queued;
          assert wired + sendBuf.Data() == pushed;
      }
    }

    /** Room for recv(): after compaction when the array is full to its end. */
    ghost function Room(): nat
      requires Valid()
      reads Repr()
    {
      if recvBuf.Available() == 0 then recvBuf.begin else recvBuf.Available()
    }

    method Recv(o: Received) returns (ret: int)
      requires Valid() && (o.Got? ==> |o.bytes| <= Room())
      modifies this, recvBuf, recvBuf.buff
      ensures Valid() && pushed == old(pushed) && wired == old(wired) && popped == old(popped)
      ensures old(state) in {NetConnected, NetSendFailed} && old(Room()) > 0 ==>
        && received == old(received) + (if o.Got? then o.bytes else [])
        && ret == (if o == RecvError then RECV_FAILED else if o == Got([]) then PEER_CLOSED else NORMAL)
        && state == (if o == RecvError then NetRecvFailed else if o == Got([]) then NetPeerClosed else old(state))
      ensures old(state) !in {NetConnected, NetSendFailed} || old(Room()) == 0 ==> received == old(received) && state == old(state)
      ensures old(state) in {NetRecvFailed, NetPeerClosed} || (old(state) in {NetConnected, NetSendFailed} && old(Room()) == 0) ==> ret == NORMAL
      ensures old(state) == NetAssertFail ==> ret == ASSERT_FAILED
      ensures old(state) in {NetInited, NetConnecting} ==> ret == NOT_CONNECTED
    {
      if state == NetAssertFail {
        return ASSERT_FAILED;
      } else if state == NetRecvFailed || state == NetPeerClosed {
        return NORMAL;
      } else if state != NetConnected && state != NetSendFailed {
        return NOT_CONNECTED;
      }
      if recvBuf.Available() == 0 {
        recvBuf.Recycle();
        if recvBuf.Available() == 0 {
          return NORMAL;
        }
      }
      match o {
        case RecvWouldBlock =>
          return NORMAL;
        case RecvError =>
          state := NetRecvFailed;
          return RECV_FAILED;
        case Got(bytes) =>
          if |bytes| == 0 {
            state := NetPeerClosed;
            return PEER_CLOSED;
          }
          recvBuf.Append(bytes);
          received := received + bytes;
          return NORMAL;
      }
    }

    method HasNewPkg() returns (b: bool)
      requires Valid()
      ensures b == HasPkg(recvBuf.Data())
    {
      var len := PkgLen(recvBuf.Data());
      b := len > 0 && len <= |recvBuf.Data()|;
    }

    /** The package at the front, without taking it; nothing when it is not complete. */
    method PeekFromRecvQ() returns (pkg: Option<seq<byte>>)
      requires Valid()
      ensures pkg == if HasPkg(recvBuf.Data()) then Some(recvBuf.Data()[..PkgLen(recvBuf.Data())]) else None
    {
      var len := PkgLen(recvBuf.Data());
      pkg := if len > 0 && len <= |recvBuf.Data()| then Some(recvBuf.Data()[..len]) else None;
    }

    /** Takes the package at the front; compacts instead when there is none. */
    method PopFromRecvQ()
      requires Valid()
      modifies this, recvBuf, recvBuf.buff
      ensures Valid() && state == old(state)
      ensures pushed == old(pushed) && wired == old(wired) && received == old(received)
      ensures popped == old(popped) + if old(HasPkg(recvBuf.Data())) then old(recvBuf.Data()[..PkgLen(recvBuf.Data())]) else []
    {
      var len := PkgLen(recvBuf.Data());
      if len <= 0 || len > |recvBuf.Data()| {
        recvBuf.Recycle();
        return;
      }
      ghost var queued := recvBuf.Data();
      recvBuf.begin := recvBuf.begin + len;
      assert recvBuf.Data() == queued[len..];
      popped := popped + queued[..len];
      assert queued[..len] + queued[len..] == queued;
    }
  }

  // ---------- packages out of the receive queue ----------

  /** A client that has popped k whole frames of a written stream finds frame k next, as soon as
      and only when all of it has arrived. */
  lemma NextPackage(ps: seq<seq<byte>>, k: nat, data: seq<byte>)
    requires Framable(ps) && k <= |ps| && FrameAll(ps[..k]) + data <= FrameAll(ps)
    ensures HasPkg(data) <==> k < |ps| && |data| >= |Frame(ps[k])|
    ensures HasPkg(data) ==> data[..PkgLen(data)] == Frame(ps[k]) && FrameAll(ps[..k]) + data[..PkgLen(data)] == FrameAll(ps[..k + 1])
  {
    FrameAllSplit(ps, k);
    assert data <= FrameAll(ps[k..]) by {
      assert (FrameAll(ps[..k]) + data)[|FrameAll(ps[..k])|..] == data;
      assert FrameAll(ps)[|FrameAll(ps[..k])|..] == FrameAll(ps[k..]);
    }
    if k < |ps| {
      var p := ps[k];
      assert FrameAll(ps[k..]) == Frame(p) + FrameAll(ps[k..][1..]);
      if |data| > HEADER {
        FrameReadsBack(p, FrameAll(ps[k..][1..]));
        assert data[..HEADER] == FrameAll(ps[k..])[..HEADER];
      }
      if HasPkg(data) {
        assert data[..|Frame(p)|] == Frame(p);
        TakeMore(ps, k, 1);
        assert ps[k..][..1] == [p];
        assert FrameAll([p]) == Frame(p) + FrameAll([]);
      }
    }
  }

  /** A full receive buffer never blocks for good: if a frame of the stream is waiting at its
      front and that frame fits the buffer, it is complete. */
  lemma FullBufferHasPackage(ps: seq<seq<byte>>, k: nat, data: seq<byte>, size: nat)
    requires Framable(ps) && k < |ps| && FrameAll(ps[..k]) + data <= FrameAll(ps)
    requires |data| == size
    ensures HasPkg(data) <==> |Frame(ps[k])| <= size
  {
    NextPackage(ps, k, data);
  }
}
