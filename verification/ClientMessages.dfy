/** The messages of client.proto: the field tables of the nine generated classes, and the
    messages the client and the connector actually build from them. */
module ClientMessages {
  import opened Bytes
  import opened Codec
  import CodecLaws
  import Varint

  const CS_HEAD := Schema([Field(1, true, Int32), Field(2, true, Int64), Field(3, true, Int32)])
  const CS_SYN := Schema([Field(1, true, Octets), Field(2, true, Octets)])
  const CS_SYN_ACK := Schema([Field(1, true, Octets)])
  const CS_AUTH := Schema([Field(1, true, Octets)])
  const CS_PASSPORT := Schema([Field(1, false, Int64)])
  const CS_START := Schema([Field(1, false, Int32)])
  const CS_ERROR := Schema([Field(1, true, Int32), Field(2, true, Octets)])
  const CS_BODY := Schema([
    Field(1, false, Message(CS_SYN)),
    Field(2, false, Message(CS_SYN_ACK)),
    Field(3, false, Message(CS_AUTH)),
    Field(4, false, Message(CS_PASSPORT)),
    Field(5, false, Message(CS_START)),
    Field(16, false, Octets),
    Field(100, false, Message(CS_ERROR))])
  const CS_MSG := Schema([Field(1, true, Message(CS_HEAD)), Field(2, true, Message(CS_BODY))])

  lemma SchemasAreValid()
    ensures ValidSchema(CS_HEAD) && ValidSchema(CS_BODY) && ValidSchema(CS_MSG)
  {
    assert ValidSchema(CS_HEAD);
    BodySchemaIsValid();
    assert forall k :: 0 <= k < |CS_MSG.fields| ==> ValidSchema(CS_MSG.fields[k].kind.sub);
  }

  lemma BodySchemaIsValid()
    ensures ValidSchema(CS_BODY)
  {
    forall k | 0 <= k < |CS_BODY.fields| && CS_BODY.fields[k].kind.Message?
      ensures ValidSchema(CS_BODY.fields[k].kind.sub)
    {
      SmallSchemaIsValid(CS_BODY.fields[k].kind.sub);
    }
    assert forall k :: 0 <= k < |CS_BODY.fields| ==> CS_BODY.fields[k].number == [1, 2, 3, 4, 5, 16, 100][k];
  }

  lemma SmallSchemaIsValid(sub: Schema)
    requires |sub.fields| <= 2
    requires forall j :: 0 <= j < |sub.fields| ==> sub.fields[j].number == j + 1 && !sub.fields[j].kind.Message?
    ensures ValidSchema(sub)
  {
  }

  /** The generated code spells out each tag and how many octets it takes: one everywhere, two
      for fields 16 and 100. */
  lemma BodyTags()
    ensures forall k :: 0 <= k < 7 ==> Tag(CS_BODY.fields[k]) == [10, 18, 26, 34, 42, 130, 802][k]
    ensures forall k :: 0 <= k < 7 ==> Varint.Size(Tag(CS_BODY.fields[k])) == if k < 5 then 1 else 2
    ensures forall k :: 0 <= k < 3 ==> Tag(CS_HEAD.fields[k]) == [8, 16, 24][k]
    ensures forall k :: 0 <= k < 2 ==> Tag(CS_MSG.fields[k]) == [10, 18][k]
  {
    assert Varint.Size(130) == 1 + Varint.Size(1) && Varint.Size(802) == 1 + Varint.Size(6);
  }

  // BodyCmdId
  const SYN := 1
  const SYNACK := 2
  const AUTHENTICATION := 3
  const PASSPORT := 4
  const START_APP := 5
  const DATA_TRANSPARENT := 16
  const ERROR := 100

  const MAGIC_CS_V1 := 0x3344

  datatype CsBody =
    | SynBody(appid: seq<byte>, openid: seq<byte>)
    | AckBody(secretkey: seq<byte>)
    | AuthBody(token: seq<byte>)
    | PassportBody(passport: int)
    | StartBody(code: int)
    | DataBody(data: seq<byte>)

  datatype CsMsg = CsMsg(magic: int, sequence: int, bodyid: int, body: CsBody)

  function HeadOf(m: CsMsg): Msg {
    Msg([Some(IntValue(m.magic)), Some(IntValue(m.sequence)), Some(IntValue(m.bodyid))])
  }

  function One(v: Value): Option<Value> {
    Some(MsgValue(Msg([Some(v)])))
  }

  function BodyOf(b: CsBody): Msg {
    match b
    case SynBody(appid, openid) =>
      Msg([Some(MsgValue(Msg([Some(OctetsValue(appid)), Some(OctetsValue(openid))]))), None, None, None, None, None, None])
    case AckBody(key) => Msg([None, One(OctetsValue(key)), None, None, None, None, None])
    case AuthBody(token) => Msg([None, None, One(OctetsValue(token)), None, None, None, None])
    case PassportBody(p) => Msg([None, None, None, One(IntValue(p)), None, None, None])
    case StartBody(code) => Msg([None, None, None, None, One(IntValue(code)), None, None])
    case DataBody(data) => Msg([None, None, None, None, None, Some(OctetsValue(data)), None])
  }

  function ToWire(m: CsMsg): Msg {
    Msg([Some(MsgValue(HeadOf(m))), Some(MsgValue(BodyOf(m.body)))])
  }

  ghost predicate InRange(m: CsMsg) {
    && -TWO_31 <= m.magic < TWO_31
    && -TWO_63 <= m.sequence < TWO_63
    && -TWO_31 <= m.bodyid < TWO_31
    && match m.body
       case PassportBody(p) => -TWO_63 <= p < TWO_63
       case StartBody(code) => -TWO_31 <= code < TWO_31
       case _ => true
  }

  /** Whatever the two ends build is well typed and has its required fields. */
  lemma BuiltMessagesAreInitialized(m: CsMsg)
    requires InRange(m)
    ensures Typed(CS_MSG, ToWire(m)) && IsInitialized(CS_MSG, ToWire(m))
  {
    assert Typed(CS_HEAD, HeadOf(m)) && IsInitialized(CS_HEAD, HeadOf(m));
    BuiltBodiesAreInitialized(m);
  }

  lemma BuiltBodiesAreInitialized(m: CsMsg)
    requires InRange(m)
    ensures Typed(CS_BODY, BodyOf(m.body)) && IsInitialized(CS_BODY, BodyOf(m.body))
  {
    var b := BodyOf(m.body);
    match m.body
    case SynBody(appid, openid) =>
      assert Typed(CS_SYN, b.slots[0].value.m) && IsInitialized(CS_SYN, b.slots[0].value.m);
    case AckBody(key) =>
      assert Typed(CS_SYN_ACK, b.slots[1].value.m) && IsInitialized(CS_SYN_ACK, b.slots[1].value.m);
    case AuthBody(token) =>
      assert Typed(CS_AUTH, b.slots[2].value.m) && IsInitialized(CS_AUTH, b.slots[2].value.m);
    case PassportBody(p) =>
      assert Typed(CS_PASSPORT, b.slots[3].value.m) && IsInitialized(CS_PASSPORT, b.slots[3].value.m);
    case StartBody(code) =>
      assert Typed(CS_START, b.slots[4].value.m) && IsInitialized(CS_START, b.slots[4].value.m);
    case DataBody(data) =>
  }

  /** The message can be written: its numbers and lengths fit the types that carry them. */
  ghost predicate Sendable(m: CsMsg) {
    InRange(m) && Typed(CS_MSG, ToWire(m)) && Fits(CS_MSG, ToWire(m)) && ByteSize(CS_MSG, ToWire(m)) + 4 < TWO_31
  }

  function Encode(m: CsMsg): (s: seq<byte>)
    requires Sendable(m)
  {
    Serialize(CS_MSG, ToWire(m))
  }

  /** The receiver parses the very message the sender built. */
  lemma MessageRoundTrip(m: CsMsg)
    requires Sendable(m)
    ensures Parse(CS_MSG, Encode(m)) == Some(ToWire(m))
    ensures 0 < |Encode(m)| < TWO_31 - 4
  {
    SchemasAreValid();
    BuiltMessagesAreInitialized(m);
    CodecLaws.RoundTrip(CS_MSG, ToWire(m));
    CodecLaws.InitializedExactly(CS_MSG, ToWire(m));
    CodecLaws.SizeIsLength(CS_MSG, ToWire(m));
    assert Parse(CS_MSG, []) == None by {
      assert Empty(CS_MSG).slots[0].None?;
    }
  }

  /** A number, in the form it travels in. */
  function Num(i: int): seq<byte>
    requires -TWO_63 <= i < TWO_63
  {
    Varint.Encode(Varint.ToWire(i))
  }

  function Prefixed(s: seq<byte>): seq<byte> {
    Varint.Encode(|s|) + s
  }

  function HeadOctets(m: CsMsg): seq<byte>
    requires InRange(m)
  {
    [8] + Num(m.magic) + [16] + Num(m.sequence) + [24] + Num(m.bodyid)
  }

  function BodyOctets(b: CsBody): seq<byte>
    requires b.PassportBody? ==> -TWO_63 <= b.passport < TWO_63
    requires b.StartBody? ==> -TWO_63 <= b.code < TWO_63
  {
    match b
    case SynBody(appid, openid) => [10] + Prefixed([10] + Prefixed(appid) + [18] + Prefixed(openid))
    case AckBody(key) => [18] + Prefixed([10] + Prefixed(key))
    case AuthBody(token) => [26] + Prefixed([10] + Prefixed(token))
    case PassportBody(p) => [34] + Prefixed([8] + Num(p))
    case StartBody(code) => [42] + Prefixed([8] + Num(code))
    case DataBody(data) => [130, 1] + Prefixed(data)
  }

  /** Octet by octet, what a message is on the wire. */
  lemma OnTheWire(m: CsMsg)
    requires Sendable(m)
    ensures Encode(m) == [10] + Prefixed(HeadOctets(m)) + [18] + Prefixed(BodyOctets(m.body))
  {
    SchemasAreValid();
    HeadOnTheWire(m);
    BodyOnTheWire(m);
    CodecLaws.SizeIsLength(CS_HEAD, HeadOf(m));
    CodecLaws.SizeIsLength(CS_BODY, BodyOf(m.body));
    TagsOnTheWire();
    var w := ToWire(m);
    WriteTwo(CS_MSG, w, [10] + Prefixed(HeadOctets(m)), [18] + Prefixed(BodyOctets(m.body)));
  }

  lemma TagsOnTheWire()
    ensures Varint.Encode(8) == [8] && Varint.Encode(10) == [10] && Varint.Encode(16) == [16] && Varint.Encode(18) == [18]
    ensures Varint.Encode(24) == [24] && Varint.Encode(26) == [26] && Varint.Encode(34) == [34] && Varint.Encode(42) == [42]
    ensures Varint.Encode(130) == [130, 1]
  {
    assert Varint.Encode(130) == [130] + Varint.Encode(1);
  }

  lemma WriteTwo(schema: Schema, m: Msg, a: seq<byte>, b: seq<byte>)
    requires Typed(schema, m) && |schema.fields| == 2
    requires WriteField(schema.fields[0], m.slots[0]) == a && WriteField(schema.fields[1], m.slots[1]) == b
    ensures Serialize(schema, m) == a + b
  {
    assert SerializeFrom(schema, m, 2) == [];
    assert SerializeFrom(schema, m, 1) == b + [];
    assert SerializeFrom(schema, m, 0) == a + SerializeFrom(schema, m, 1);
  }

  lemma WriteOne(schema: Schema, m: Msg, a: seq<byte>)
    requires Typed(schema, m) && |schema.fields| == 1 && WriteField(schema.fields[0], m.slots[0]) == a
    ensures Serialize(schema, m) == a
  {
    assert SerializeFrom(schema, m, 1) == [];
    assert SerializeFrom(schema, m, 0) == a + [];
  }

  lemma HeadOnTheWire(m: CsMsg)
    requires InRange(m)
    ensures Typed(CS_HEAD, HeadOf(m)) && Serialize(CS_HEAD, HeadOf(m)) == HeadOctets(m)
  {
    var h := HeadOf(m);
    TagsOnTheWire();
    assert SerializeFrom(CS_HEAD, h, 3) == [];
    assert SerializeFrom(CS_HEAD, h, 2) == [24] + Num(m.bodyid) + [];
    assert SerializeFrom(CS_HEAD, h, 1) == ([16] + Num(m.sequence)) + SerializeFrom(CS_HEAD, h, 2);
    assert SerializeFrom(CS_HEAD, h, 0) == ([8] + Num(m.magic)) + SerializeFrom(CS_HEAD, h, 1);
  }

  /** Of the body one field is there. */
  lemma {:induction false} WriteOnly(m: Msg, k: nat, j: nat)
    requires Typed(CS_BODY, m) && j <= k < 7 && forall i :: 0 <= i < 7 && i != k ==> m.slots[i].None?
    ensures SerializeFrom(CS_BODY, m, j) == WriteField(CS_BODY.fields[k], m.slots[k])
    decreases k - j
  {
    if j < k {
      WriteOnly(m, k, j + 1);
      assert [] + SerializeFrom(CS_BODY, m, j + 1) == SerializeFrom(CS_BODY, m, j + 1);
    } else {
      WriteNone(m, k + 1);
      var a := WriteField(CS_BODY.fields[k], m.slots[k]);
      assert a + [] == a;
    }
  }

  lemma {:induction false} WriteNone(m: Msg, j: nat)
    requires Typed(CS_BODY, m) && j <= 7 && forall i :: j <= i < 7 ==> m.slots[i].None?
    ensures SerializeFrom(CS_BODY, m, j) == []
    decreases 7 - j
  {
    if j < 7 {
      WriteNone(m, j + 1);
      assert [] + SerializeFrom(CS_BODY, m, j + 1) == [];
    }
  }

  lemma SubOnTheWire(b: Msg, k: nat, octets: seq<byte>)
    requires Typed(CS_BODY, b) && k < 5 && forall i :: 0 <= i < 7 ==> (i == k <==> b.slots[i].Some?)
    requires b.slots[k].value.MsgValue? && Typed(CS_BODY.fields[k].kind.sub, b.slots[k].value.m)
    requires Serialize(CS_BODY.fields[k].kind.sub, b.slots[k].value.m) == octets
    ensures Serialize(CS_BODY, b) == Varint.Encode(Tag(CS_BODY.fields[k])) + Prefixed(octets)
  {
    WriteOnly(b, k, 0);
    CodecLaws.SizeIsLength(CS_BODY.fields[k].kind.sub, b.slots[k].value.m);
  }

  lemma SynOnTheWire(appid: seq<byte>, openid: seq<byte>)
    ensures var m := Msg([Some(OctetsValue(appid)), Some(OctetsValue(openid))]);
      Typed(CS_SYN, m) && Serialize(CS_SYN, m) == [10] + Prefixed(appid) + [18] + Prefixed(openid)
  {
    TagsOnTheWire();
    WriteTwo(CS_SYN, Msg([Some(OctetsValue(appid)), Some(OctetsValue(openid))]), [10] + Prefixed(appid), [18] + Prefixed(openid));
    assert ([10] + Prefixed(appid)) + ([18] + Prefixed(openid)) == [10] + Prefixed(appid) + [18] + Prefixed(openid);
  }

  lemma BodyOnTheWire(m: CsMsg)
    requires InRange(m)
    ensures Typed(CS_BODY, BodyOf(m.body)) && Serialize(CS_BODY, BodyOf(m.body)) == BodyOctets(m.body)
  {
    var b := BodyOf(m.body);
    BuiltBodiesAreInitialized(m);
    TagsOnTheWire();
    BodyTags();
    match m.body
    case SynBody(appid, openid) =>
      SynOnTheWire(appid, openid);
      SubOnTheWire(b, 0, [10] + Prefixed(appid) + [18] + Prefixed(openid));
    case AckBody(key) =>
      WriteOne(CS_SYN_ACK, b.slots[1].value.m, [10] + Prefixed(key));
      SubOnTheWire(b, 1, [10] + Prefixed(key));
    case AuthBody(token) =>
      WriteOne(CS_AUTH, b.slots[2].value.m, [10] + Prefixed(token));
      SubOnTheWire(b, 2, [10] + Prefixed(token));
    case PassportBody(p) =>
      WriteOne(CS_PASSPORT, b.slots[3].value.m, [8] + Num(p));
      SubOnTheWire(b, 3, [8] + Num(p));
    case StartBody(code) =>
      WriteOne(CS_START, b.slots[4].value.m, [8] + Num(code));
      SubOnTheWire(b, 4, [8] + Num(code));
    case DataBody(data) => WriteOnly(b, 5, 0);
  }

  /** Any of the first n fields is not there. */
  predicate LacksOneOf(slots: seq<Option<Value>>, n: nat) {
    exists j :: 0 <= j < n <= |slots| && slots[j].None?
  }

  /** The submessage in this slot is there, without one of its first n fields. */
  predicate LacksIn(slots: seq<Option<Value>>, k: nat, n: nat) {
    k < |slots| && slots[k].Some? && slots[k].value.MsgValue? && LacksOneOf(slots[k].value.m.slots, n)
  }

  /** In the body: of syn, ack, auth or error. */
  predicate BodyLacksOne(body: Value) {
    body.MsgValue? && var slots := body.m.slots;
    LacksIn(slots, 0, 2) || LacksIn(slots, 1, 1) || LacksIn(slots, 2, 1) || LacksIn(slots, 6, 2)
  }

  /** A message of the protocol is turned down exactly when the head, the body, one of the three
      fields of the head, or a required field of the body's syn, ack, auth or error is missing. */
  lemma TurnedDownExactlyWhen(m: Msg)
    requires Typed(CS_MSG, m) && Fits(CS_MSG, m)
    ensures Parse(CS_MSG, Serialize(CS_MSG, m)) == None <==>
        || LacksOneOf(m.slots, 2)
        || LacksIn(m.slots, 0, 3)
        || BodyLacksOne(m.slots[1].value)
  {
    SchemasAreValid();
    CodecLaws.RoundTrip(CS_MSG, m);
    CodecLaws.InitializedExactly(CS_MSG, m);
    if m.slots[0].Some? && m.slots[1].Some? {
      assert IsInitialized(CS_MSG, m) <==>
        InitializedValue(Message(CS_HEAD), m.slots[0].value) && InitializedValue(Message(CS_BODY), m.slots[1].value);
      HeadLacks(m.slots[0].value.m);
      BodyLacks(m.slots[1].value.m);
    }
  }

  lemma HeadLacks(m: Msg)
    requires Typed(CS_HEAD, m)
    ensures IsInitialized(CS_HEAD, m) <==> !LacksOneOf(m.slots, 3)
  {
  }

  lemma BodyLacks(m: Msg)
    requires Typed(CS_BODY, m)
    ensures !IsInitialized(CS_BODY, m) <==> BodyLacksOne(MsgValue(m))
  {
    forall k, n | 0 <= k < 7 && CS_BODY.fields[k].kind.Message? && m.slots[k].Some? && n == Required(k)
      ensures IsInitialized(CS_BODY.fields[k].kind.sub, m.slots[k].value.m) <==> !LacksIn(m.slots, k, n)
    {
      SmallLacks(CS_BODY.fields[k].kind.sub, m.slots[k].value.m, n);
    }
  }

  /** How many of the fields of the body's k-th submessage are required. */
  function Required(k: nat): nat {
    if k == 0 || k == 6 then 2 else if k == 1 || k == 2 then 1 else 0
  }

  lemma SmallLacks(sub: Schema, m: Msg, n: nat)
    requires Typed(sub, m) && n <= |sub.fields|
    requires forall j :: 0 <= j < |sub.fields| ==> !sub.fields[j].kind.Message? && (sub.fields[j].required <==> j < n)
    ensures IsInitialized(sub, m) <==> !LacksOneOf(m.slots, n)
  {
  }

  /** Two different messages are different on the wire. */
  lemma ToWireInjective(a: CsMsg, b: CsMsg)
    requires ToWire(a) == ToWire(b)
    ensures a == b
  {
    BodyInjective(a.body, b.body);
  }

  lemma BodyInjective(a: CsBody, b: CsBody)
    requires BodyOf(a) == BodyOf(b)
    ensures a == b
  {
  }

  /** A head announced with five octets and given none: accepted as an empty head, and what comes
      next would be read into it. */
  lemma CutOffHeadIsAccepted()
    ensures ParseInto(CS_MSG, [10, 5], Empty(CS_MSG)) == Some(Msg([Some(MsgValue(Empty(CS_HEAD))), None]))
    ensures Wants(CS_MSG, [10, 5]) == 5
  {
    var s: seq<byte> := [10, 5];
    assert Varint.Decode(s, Varint.MAX_VARINT_BYTES) == Some(Varint.Read(10, 1));
    assert s[1..] == [5] && Varint.Decode([5], Varint.MAX_VARINT_BYTES) == Some(Varint.Read(5, 1));
    assert FieldOfTag(CS_MSG, 10) == Some(0);
    assert ReadLimited([5]) == Some(([], 1)) && Short(Message(CS_HEAD), [5]) == 5;
    var next := Msg([Some(MsgValue(Empty(CS_HEAD))), None]);
    assert ReadValue(Message(CS_HEAD), [5], None) == Some((MsgValue(Empty(CS_HEAD)), 1));
    assert ParseTagged(CS_MSG, 10, [5], Empty(CS_MSG)) == Some((next, 1)) by {
      assert Empty(CS_MSG).slots[0 := Some(MsgValue(Empty(CS_HEAD)))] == next.slots;
    }
    CodecLaws.ParseFieldIs(CS_MSG, s, Empty(CS_MSG), 10, 1, next, 1);
    CodecLaws.ParseIntoStep(CS_MSG, s, Empty(CS_MSG), next, 2);
    assert s[2..] == [];
    CodecLaws.WantsAfterTag(CS_MSG, s, 10, 1);
    CodecLaws.WantsOfCut(CS_MSG, 10, 0, [5]);
  }
}
