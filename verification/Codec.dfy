/** The wire codec shared by every generated message class: what it writes, how many octets
    that takes, how it reads them back and how it merges two messages.

    The generated classes differ only in their field tables, so the code here is written once
    over a table, the schema, and the classes of client.proto are the schemas of module
    ClientSchema.  Slot k of a message belongs to field k of its schema; a slot that is Some is
    a field whose has-bit is set. */
module Codec {
  import opened Bytes
  import Varint

  datatype Kind = Int32 | Int64 | Octets | Message(sub: Schema)
  datatype Field = Field(number: nat, required: bool, kind: Kind)
  datatype Schema = Schema(fields: seq<Field>)

  datatype Value = IntValue(i: int) | OctetsValue(b: seq<byte>) | MsgValue(m: Msg)
  datatype Msg = Msg(slots: seq<Option<Value>>)

  const WIRETYPE_VARINT := 0
  const WIRETYPE_FIXED64 := 1
  const WIRETYPE_LENGTH_DELIMITED := 2
  const WIRETYPE_END_GROUP := 4
  const WIRETYPE_FIXED32 := 5

  function WireType(kind: Kind): (w: nat) {
    if kind.Int32? || kind.Int64? then WIRETYPE_VARINT else WIRETYPE_LENGTH_DELIMITED
  }

  function Tag(f: Field): nat {
    8 * f.number + WireType(f.kind)
  }

  /** Field numbers are positive, fit a tag, and never repeat; the same below. */
  ghost predicate ValidSchema(schema: Schema) {
    && (forall k :: 0 <= k < |schema.fields| ==> 1 <= schema.fields[k].number < 0x2000_0000)
    && (forall j, k :: 0 <= j < k < |schema.fields| ==> schema.fields[j].number != schema.fields[k].number)
    && (forall k :: 0 <= k < |schema.fields| && schema.fields[k].kind.Message? ==> ValidSchema(schema.fields[k].kind.sub))
  }

  function Empty(schema: Schema): (m: Msg)
    ensures |m.slots| == |schema.fields|
  {
    Msg(seq(|schema.fields|, _ => None))
  }

  /** The message has the slots its schema asks for, each holding a value of its field's type. */
  ghost predicate Typed(schema: Schema, m: Msg)
    decreases schema
  {
    && |m.slots| == |schema.fields|
    && forall k :: 0 <= k < |schema.fields| && m.slots[k].Some?
        ==> TypedValue(schema.fields[k].kind, m.slots[k].value)
  }

  ghost predicate TypedValue(kind: Kind, v: Value)
    decreases kind
  {
    match kind
    case Int32 => v.IntValue? && -TWO_31 <= v.i < TWO_31
    case Int64 => v.IntValue? && -TWO_63 <= v.i < TWO_63
    case Octets => v.OctetsValue?
    case Message(sub) => v.MsgValue? && Typed(sub, v.m)
  }

  ghost predicate TypedSlot(kind: Kind, slot: Option<Value>) {
    slot.Some? ==> TypedValue(kind, slot.value)
  }

  /** Every length this message writes fits the `int` that carries it. */
  ghost predicate Fits(schema: Schema, m: Msg)
    requires Typed(schema, m)
    decreases schema
  {
    forall k :: 0 <= k < |schema.fields| && m.slots[k].Some? ==> FitsValue(schema.fields[k].kind, m.slots[k].value)
  }

  ghost predicate FitsValue(kind: Kind, v: Value)
    requires TypedValue(kind, v)
    decreases kind
  {
    match kind
    case Int32 => true
    case Int64 => true
    case Octets => |v.b| < TWO_31
    case Message(sub) => ByteSize(sub, v.m) < TWO_31 && Fits(sub, v.m)
  }

  // ---------- size ----------

  function ByteSize(schema: Schema, m: Msg): (n: nat)
    requires Typed(schema, m)
    decreases schema, 1, 0
  {
    SizeFrom(schema, m, 0)
  }

  /** Octets taken by the fields from k on. */
  function SizeFrom(schema: Schema, m: Msg, k: nat): (n: nat)
    requires Typed(schema, m) && k <= |schema.fields|
    decreases schema, 0, |schema.fields| - k
  {
    if k == |schema.fields| then 0
    else FieldSize(schema.fields[k], m.slots[k]) + SizeFrom(schema, m, k + 1)
  }

  function FieldSize(f: Field, slot: Option<Value>): (n: nat)
    requires TypedSlot(f.kind, slot)
    decreases f
  {
    if slot.None? then 0 else Varint.Size(Tag(f)) + ValueSize(f.kind, slot.value)
  }

  function ValueSize(kind: Kind, v: Value): (n: nat)
    requires TypedValue(kind, v)
    decreases kind
  {
    match kind
    case Int32 => Varint.Size(Varint.ToWire(v.i))
    case Int64 => Varint.Size(Varint.ToWire(v.i))
    case Octets => Varint.Size(|v.b|) + |v.b|
    case Message(sub) => Varint.Size(ByteSize(sub, v.m)) + ByteSize(sub, v.m)
  }

  // ---------- writing ----------

  function Serialize(schema: Schema, m: Msg): (s: seq<byte>)
    requires Typed(schema, m)
    decreases schema, 1, 0
  {
    SerializeFrom(schema, m, 0)
  }

  function SerializeFrom(schema: Schema, m: Msg, k: nat): (s: seq<byte>)
    requires Typed(schema, m) && k <= |schema.fields|
    decreases schema, 0, |schema.fields| - k
  {
    if k == |schema.fields| then []
    else WriteField(schema.fields[k], m.slots[k]) + SerializeFrom(schema, m, k + 1)
  }

  function WriteField(f: Field, slot: Option<Value>): (s: seq<byte>)
    requires TypedSlot(f.kind, slot)
    decreases f
  {
    if slot.None? then [] else Varint.Encode(Tag(f)) + WriteValue(f.kind, slot.value)
  }

  /** A submessage is prefixed with its computed size, not with the length of what it writes. */
  function WriteValue(kind: Kind, v: Value): (s: seq<byte>)
    requires TypedValue(kind, v)
    decreases kind
  {
    match kind
    case Int32 => Varint.Encode(Varint.ToWire(v.i))
    case Int64 => Varint.Encode(Varint.ToWire(v.i))
    case Octets => Varint.Encode(|v.b|) + v.b
    case Message(sub) => Varint.Encode(ByteSize(sub, v.m)) + Serialize(sub, v.m)
  }

  // ---------- reading ----------

  /** The field a number belongs to, or |schema.fields| when there is none. */
  function FindField(schema: Schema, number: nat): (k: nat)
    ensures k <= |schema.fields|
    ensures k < |schema.fields| ==> schema.fields[k].number == number
    ensures forall j :: 0 <= j < k ==> schema.fields[j].number != number
  {
    FindFieldFrom(schema, number, 0)
  }

  function FindFieldFrom(schema: Schema, number: nat, from: nat): (k: nat)
    requires from <= |schema.fields|
    ensures from <= k <= |schema.fields|
    ensures k < |schema.fields| ==> schema.fields[k].number == number
    ensures forall j :: from <= j < k ==> schema.fields[j].number != number
    decreases |schema.fields| - from
  {
    if from == |schema.fields| || schema.fields[from].number == number then from
    else FindFieldFrom(schema, number, from + 1)
  }

  /** The field a tag stands for: its number is known and its wire type is the declared one. */
  function FieldOfTag(schema: Schema, tag: nat): (r: Option<nat>)
    ensures r.Some? ==> r.value < |schema.fields|
  {
    var k := FindField(schema, tag / 8);
    if k < |schema.fields| && tag % 8 == WireType(schema.fields[k].kind) then Some(k) else None
  }

  /** A 32-bit varint: the high-order bits of a longer one are dropped. */
  function Read32(s: seq<byte>): (r: Option<Varint.Read>)
    ensures r.Some? ==> 1 <= r.value.used <= |s| && r.value.value < TWO_32
  {
    match Varint.Decode(s, Varint.MAX_VARINT_BYTES)
    case None => None
    case Some(r) => Some(Varint.Read(r.value % TWO_32, r.used))
  }

  /** A length prefix and its octets: None when the length is negative as an `int` or runs past
      the end.  The number is how many octets were used, prefix included. */
  function ReadDelimited(s: seq<byte>): (r: Option<(seq<byte>, nat)>)
    ensures r.Some? ==> 1 <= r.value.1 <= |s| && |r.value.0| < r.value.1
  {
    match Read32(s)
    case None => None
    case Some(r) =>
      if r.value >= TWO_31 || r.value > |s| - r.used then None
      else Some((s[r.used..r.used + r.value], r.used + r.value))
  }

  /** A submessage's length prefix and what may be read of it: PushLimit narrows the limit in
      force and never widens it, so a length that runs past the end, or is negative, leaves all
      that remains. */
  function ReadLimited(s: seq<byte>): (r: Option<(seq<byte>, nat)>)
    ensures r.Some? ==> 1 <= r.value.1 <= |s| && |r.value.0| < r.value.1
  {
    match Read32(s)
    case None => None
    case Some(r) =>
      var n := if r.value <= |s| - r.used then r.value else |s| - r.used;
      Some((s[r.used..r.used + n], r.used + n))
  }

  /** mutable_x(): the submessage already there, or a new empty one. */
  function Mutable(sub: Schema, slot: Option<Value>): (m: Msg)
    requires TypedSlot(Message(sub), slot)
    ensures Typed(sub, m)
  {
    if slot.Some? then slot.value.m else Empty(sub)
  }

  /** Reads one value and the number of octets it took.  A submessage is read on top of the one
      already in the slot. */
  function ReadValue(kind: Kind, s: seq<byte>, slot: Option<Value>): (r: Option<(Value, nat)>)
    requires TypedSlot(kind, slot)
    ensures r.Some? ==> TypedValue(kind, r.value.0) && 1 <= r.value.1 <= |s|
    decreases kind
  {
    match kind
    case Int32 =>
      var r := Varint.Decode(s, Varint.MAX_VARINT_BYTES);
      if r.None? then None else Some((IntValue(Varint.FromWire32(r.value.value)), r.value.used))
    case Int64 =>
      var r := Varint.Decode(s, Varint.MAX_VARINT_BYTES);
      if r.None? then None else Some((IntValue(Varint.FromWire64(r.value.value)), r.value.used))
    case Octets =>
      var r := ReadDelimited(s);
      if r.None? then None else Some((OctetsValue(r.value.0), r.value.1))
    case Message(sub) =>
      var r := ReadLimited(s);
      if r.None? then None
      else
        var m := ParseInto(sub, r.value.0, Mutable(sub, slot));
        if m.None? then None else Some((MsgValue(m.value), r.value.1))
  }

  /** How many octets an unknown field takes after its tag.  Groups are not read. */
  function SkipField(wire: nat, s: seq<byte>): (r: Option<nat>)
    ensures r.Some? ==> r.value <= |s|
  {
    if wire == WIRETYPE_VARINT then
      var r := Varint.Decode(s, Varint.MAX_VARINT_BYTES);
      if r.None? then None else Some(r.value.used)
    else if wire == WIRETYPE_FIXED64 then if |s| < 8 then None else Some(8)
    else if wire == WIRETYPE_LENGTH_DELIMITED then
      var r := ReadDelimited(s);
      if r.None? then None else Some(r.value.1)
    else if wire == WIRETYPE_FIXED32 then if |s| < 4 then None else Some(4)
    else None
  }

  /** What follows a tag: the message after it and the number of octets used. */
  function ParseTagged(schema: Schema, tag: nat, rest: seq<byte>, m: Msg): (r: Option<(Msg, nat)>)
    requires Typed(schema, m)
    ensures r.Some? ==> Typed(schema, r.value.0) && r.value.1 <= |rest|
    decreases schema, 0
  {
    match FieldOfTag(schema, tag)
    case Some(k) =>
      var v := ReadValue(schema.fields[k].kind, rest, m.slots[k]);
      if v.None? then None else Some((Msg(m.slots[k := Some(v.value.0)]), v.value.1))
    case None =>
      var skipped := SkipField(tag % 8, rest);
      if skipped.None? then None else Some((m, skipped.value))
  }

  /** One turn of the tag loop: the message after it and the number of octets it used. */
  function ParseField(schema: Schema, s: seq<byte>, m: Msg): (r: Option<(Msg, nat)>)
    requires Typed(schema, m)
    ensures r.Some? ==> Typed(schema, r.value.0) && 1 <= r.value.1 <= |s|
    decreases schema, 1
  {
    match Read32(s)
    case None => None
    case Some(tag) =>
      if tag.value == 0 then None
      else
        var r := ParseTagged(schema, tag.value, s[tag.used..], m);
        if r.None? then None else Some((r.value.0, tag.used + r.value.1))
  }

  /** The plain tag loop: fields are read into m until the input ends. */
  function ParseInto(schema: Schema, s: seq<byte>, m: Msg): (r: Option<Msg>)
    requires Typed(schema, m)
    ensures r.Some? ==> Typed(schema, r.value)
    decreases schema, 2, |s|
  {
    if s == [] then Some(m)
    else
      match ParseField(schema, s, m)
      case None => None
      case Some((next, used)) => ParseInto(schema, s[used..], next)
  }

  // ---------- input that ends inside a submessage ----------

  /** How many octets the submessage at the front announces beyond the end of the input. */
  function Short(kind: Kind, s: seq<byte>): nat {
    if !kind.Message? || Read32(s).None? then 0
    else
      var r := Read32(s).value;
      if r.value <= |s| - r.used then 0 else r.value - (|s| - r.used)
  }

  /** How many more octets would still be read into the innermost submessage that s ends in; 0 when
      it ends between fields of the message itself. */
  function Wants(schema: Schema, s: seq<byte>): nat
    decreases schema, |s|
  {
    if s == [] || Read32(s).None? || Read32(s).value.value == 0 then 0
    else
      var tag := Read32(s).value;
      WantsAfter(schema, tag.value, s[tag.used..])
  }

  function WantsAfter(schema: Schema, tag: nat, rest: seq<byte>): nat
    decreases schema, |rest|, 0
  {
    match FieldOfTag(schema, tag)
    case None =>
      (match SkipField(tag % 8, rest)
       case None => 0
       case Some(n) => Wants(schema, rest[n..]))
    case Some(k) =>
      var kind := schema.fields[k].kind;
      match kind {
        case Message(sub) =>
          (match ReadLimited(rest)
           case None => 0
           case Some((content, used)) =>
             if Short(kind, rest) == 0 then Wants(schema, rest[used..])
             else
               var inner := Wants(sub, content);
               if 0 < inner < Short(kind, rest) then inner else Short(kind, rest))
        case _ =>
          (match ReadValue(kind, rest, None)
           case None => 0
           case Some((_, used)) => Wants(schema, rest[used..]))
      }
  }

  /** Every required field is there, in submessages too. */
  predicate IsInitialized(schema: Schema, m: Msg)
    requires Typed(schema, m)
    decreases schema
  {
    forall k :: 0 <= k < |schema.fields| ==>
      if m.slots[k].None? then !schema.fields[k].required
      else InitializedValue(schema.fields[k].kind, m.slots[k].value)
  }

  predicate InitializedValue(kind: Kind, v: Value)
    requires TypedValue(kind, v)
    decreases kind
  {
    kind.Message? ==> IsInitialized(kind.sub, v.m)
  }

  /** ParseFromArray: a cleared message, the tag loop, then the required fields. */
  function Parse(schema: Schema, s: seq<byte>): (r: Option<Msg>)
    ensures r.Some? ==> Typed(schema, r.value) && IsInitialized(schema, r.value)
  {
    match ParseInto(schema, s, Empty(schema))
    case None => None
    case Some(m) => if IsInitialized(schema, m) then Some(m) else None
  }

  // ---------- merging ----------

  function MergeSlot(kind: Kind, into: Option<Value>, from: Option<Value>): (r: Option<Value>)
    requires TypedSlot(kind, into) && TypedSlot(kind, from)
    ensures TypedSlot(kind, r)
    decreases kind
  {
    if from.None? then into
    else match kind
      case Message(sub) => Some(MsgValue(Merge(sub, Mutable(sub, into), from.value.m)))
      case _ => from
  }

  /** Merges the fields from k on, one after the other, into a. */
  function MergeFrom(schema: Schema, a: Msg, b: Msg, k: nat): (r: Msg)
    requires Typed(schema, a) && Typed(schema, b) && k <= |schema.fields|
    ensures Typed(schema, r)
    decreases schema, 0, |schema.fields| - k
  {
    if k == |schema.fields| then a
    else
      var slot := MergeSlot(schema.fields[k].kind, a.slots[k], b.slots[k]);
      MergeFrom(schema, Msg(a.slots[k := slot]), b, k + 1)
  }

  function Merge(schema: Schema, a: Msg, b: Msg): (r: Msg)
    requires Typed(schema, a) && Typed(schema, b)
    ensures Typed(schema, r)
    decreases schema, 1
  {
    MergeFrom(schema, a, b, 0)
  }
}
