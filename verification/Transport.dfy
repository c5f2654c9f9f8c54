/** From one end of a connection to the other: messages that are serialized, framed, cut up by
    the network and put together again are the messages that were sent, in order.  This is what
    lets the protocol modules treat a connection as a queue of messages. */
module Transport {
  import opened Bytes
  import opened Framing
  import opened ClientMessages
  import Codec

  ghost predicate AllSendable(ms: seq<CsMsg>) {
    forall k :: 0 <= k < |ms| ==> Sendable(ms[k])
  }

  /** What the sender pushes into its stream, message by message. */
  function EncodeAll(ms: seq<CsMsg>): (ps: seq<seq<byte>>)
    requires AllSendable(ms)
    ensures |ps| == |ms|
    ensures forall k :: 0 <= k < |ms| ==> ps[k] == Encode(ms[k])
  {
    if ms == [] then [] else [Encode(ms[0])] + EncodeAll(ms[1..])
  }

  lemma EncodedMessagesAreFramable(ms: seq<CsMsg>)
    requires AllSendable(ms)
    ensures Framable(EncodeAll(ms))
  {
    forall k | 0 <= k < |ms|
      ensures 0 < |EncodeAll(ms)[k]| && |EncodeAll(ms)[k]| + HEADER < TWO_31
    {
      MessageRoundTrip(ms[k]);
    }
  }

  lemma {:induction false} PayloadAt(ps: seq<seq<byte>>, k: nat)
    requires k < |ps|
    ensures Payloads(ps)[k] == Payload(ps[k])
  {
    if k > 0 {
      PayloadAt(ps[1..], k - 1);
    }
  }

  /** The receiver has the first |delivered| messages of ms, each parsed back whole. */
  ghost predicate Understood(ms: seq<CsMsg>, delivered: seq<Delivery>) {
    && |delivered| <= |ms|
    && forall k :: 0 <= k < |delivered| ==>
      delivered[k].Payload? && Codec.Parse(CS_MSG, delivered[k].bytes) == Some(ToWire(ms[k]))
  }

  lemma FirstOnesAreUnderstood(ms: seq<CsMsg>, delivered: seq<Delivery>)
    requires AllSendable(ms) && |delivered| <= |ms| && delivered == Payloads(EncodeAll(ms)[..|delivered|])
    ensures Understood(ms, delivered)
  {
    forall k | 0 <= k < |delivered|
      ensures delivered[k].Payload? && Codec.Parse(CS_MSG, delivered[k].bytes) == Some(ToWire(ms[k]))
    {
      PayloadAt(EncodeAll(ms)[..|delivered|], k);
      MessageRoundTrip(ms[k]);
    }
  }

  /** However the stream is cut into arrivals and whenever the callback runs, the connector
      parses the first messages the client sent, in order, and nothing else. */
  lemma MessagesArriveInOrder(ms: seq<CsMsg>, es: seq<Event>, cap: nat)
    requires AllSendable(ms) && Run(START, es, cap).arrived <= FrameAll(EncodeAll(ms))
    ensures Understood(ms, Run(START, es, cap).delivered)
  {
    EncodedMessagesAreFramable(ms);
    var k := FragmentationIsHarmless(EncodeAll(ms), es, cap);
    FirstOnesAreUnderstood(ms, Run(START, es, cap).delivered);
  }

  /** Once the whole stream is in, |ms| more callbacks bring every message if and only if every
      frame fits the receive buffer. */
  lemma AllMessagesArrive(ms: seq<CsMsg>, es: seq<Event>, cap: nat)
    requires AllSendable(ms) && Run(START, es, cap).arrived == FrameAll(EncodeAll(ms))
    ensures var r := Callbacks(Run(START, es, cap), |ms|, cap);
      Understood(ms, r.delivered) && (|r.delivered| == |ms| <==> AllFit(EncodeAll(ms), cap))
  {
    var ps := EncodeAll(ms);
    EncodedMessagesAreFramable(ms);
    var k := FragmentationIsHarmless(ps, es, cap);
    DeliveredFit(ps, START, es, cap, 0, k);
    EverythingFittingIsDelivered(ps, Run(START, es, cap), k, |ms|, cap);
    FirstOnesAreUnderstood(ms, Payloads(ps[..FirstTooBig(ps, cap)]));
  }

  /** Nothing from the first frame that outgrows the buffer on is ever delivered. */
  lemma {:induction false} DeliveredFit(ps: seq<seq<byte>>, r: Rx, es: seq<Event>, cap: nat, k: nat, n: nat)
    requires Framable(ps) && InStep(ps, r, k) && k <= FirstTooBig(ps, cap)
    requires InStep(ps, Run(r, es, cap), n)
    ensures n <= FirstTooBig(ps, cap)
    decreases |es|
  {
    if es == [] {
      assert |Payloads(ps[..k])| == k && |Payloads(ps[..n])| == n;
    } else {
      ArrivedGrows(Step(r, es[0], cap), es[1..], cap);
      match es[0] {
        case Arrive(bytes) =>
          assert Step(r, es[0], cap).arrived == FrameAll(ps[..k]) + Step(r, es[0], cap).input;
          DeliveredFit(ps, Step(r, es[0], cap), es[1..], cap, k, n);
        case Callback =>
          CallbackInStep(ps, r, k, cap);
          WholeWithin(ps[k..], |Window(r.input, cap)|, FirstTooBig(ps, cap) - k, cap);
          DeliveredFit(ps, Step(r, Callback, cap), es[1..], cap, Deliverable(ps, r, k, cap), n);
      }
    }
  }

  // ---------- what a connection as a queue of messages leaves out ----------

  /** The message can be written at all, and its frame fits the receiver's buffer. */
  ghost predicate Gets(m: CsMsg, cap: nat) {
    Sendable(m) && HEADER + |Encode(m)| <= cap
  }

  /** A message at the front of the input is taken by a callback if and only if it gets through;
      one that does not stays there whatever comes behind it. */
  lemma FrontMessageGetsThrough(m: CsMsg, r: Rx, rest: seq<byte>, cap: nat)
    requires Sendable(m) && r.input == Frame(Encode(m)) + rest
    ensures Gets(m, cap) <==> r.delivered < Step(r, Callback, cap).delivered
    ensures !Gets(m, cap) ==> Step(r, Callback, cap) == r
  {
    MessageRoundTrip(m);
    FrameReadsBack(Encode(m), rest);
    FrontFrameIsDelivered(r, cap);
  }

  /** For whole streams: every message gets through if and only if all frames fit. */
  lemma AllGetThrough(ms: seq<CsMsg>, cap: nat)
    requires AllSendable(ms)
    ensures (forall k :: 0 <= k < |ms| ==> Gets(ms[k], cap)) <==> AllFit(EncodeAll(ms), cap)
  {
    var ps := EncodeAll(ms);
    assert forall k :: 0 <= k < |ms| ==> ps[k] == Encode(ms[k]);
    if forall k :: 0 <= k < |ms| ==> Gets(ms[k], cap) {
      forall k | 0 <= k < |ps| ensures |ps[k]| + HEADER <= cap {
        assert Gets(ms[k], cap);
      }
    } else {
      var k :| 0 <= k < |ms| && !Gets(ms[k], cap);
      assert |ps[k]| + HEADER > cap;
    }
  }

  lemma {:induction false} WholeAtLeast(ps: seq<seq<byte>>, k: nat, n: nat)
    requires k <= |ps| && |FrameAll(ps[..k])| <= n
    ensures k <= Whole(ps, n)
    decreases k
  {
    if k > 0 {
      assert ps[..k][0] == ps[0] && ps[..k][1..] == ps[1..][..k - 1];
      WholeAtLeast(ps[1..], k - 1, n - |Frame(ps[0])|);
    }
  }

  /** A message of which not every octet has been sent never arrives: what is delivered is no more
      than lies wholly within the octets that came. */
  lemma OnlyWholeMessagesArrive(ms: seq<CsMsg>, es: seq<Event>, cap: nat)
    requires AllSendable(ms) && Run(START, es, cap).arrived <= FrameAll(EncodeAll(ms))
    ensures |Run(START, es, cap).delivered| <= Whole(EncodeAll(ms), |Run(START, es, cap).arrived|)
  {
    EncodedMessagesAreFramable(ms);
    var ps, r := EncodeAll(ms), Run(START, es, cap);
    var k := FragmentationIsHarmless(ps, es, cap);
    WholeAtLeast(ps, k, |r.arrived|);
  }
}
