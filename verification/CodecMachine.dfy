/** The generated methods as they run: a size counted field by field, a writer that advances
    through an array of exactly that size, a tag loop that jumps straight to the next field when
    its tag follows, and a merge that walks the has-bits. */
module CodecMachine {
  import opened Bytes
  import opened Codec
  import CodecLaws
  import Varint

  /** ByteSize(): the running total. */
  method ComputeByteSize(schema: Schema, m: Msg) returns (total_size: nat)
    requires Typed(schema, m)
    ensures total_size == |Serialize(schema, m)|
    decreases schema
  {
    total_size := 0;
    var k := 0;
    while k < |schema.fields|
      invariant k <= |schema.fields|
      invariant total_size + SizeFrom(schema, m, k) == ByteSize(schema, m)
    {
      var f, slot := schema.fields[k], m.slots[k];
      if slot.Some? {
        var n: nat;
        match f.kind {
          case Int32 => n := Varint.Size(Varint.ToWire(slot.value.i));
          case Int64 => n := Varint.Size(Varint.ToWire(slot.value.i));
          case Octets => n := Varint.Size(|slot.value.b|) + |slot.value.b|;
          case Message(sub) =>
            var size := ComputeByteSize(sub, slot.value.m);
            CodecLaws.SizeIsLength(sub, slot.value.m);
            n := Varint.Size(size) + size;
        }
        assert n == ValueSize(f.kind, slot.value);
        total_size := total_size + Varint.Size(Tag(f)) + n;
      }
      k := k + 1;
    }
    CodecLaws.SizeIsLength(schema, m);
  }

  /** What an array holds once s has been written at off and nothing else touched. */
  ghost predicate WrittenAt(target: seq<byte>, was: seq<byte>, off: nat, s: seq<byte>) {
    && |target| == |was|
    && off + |s| <= |was|
    && forall j :: 0 <= j < |target| ==> target[j] == if off <= j < off + |s| then s[j - off] else was[j]
  }

  lemma WriteTwice(now: seq<byte>, mid: seq<byte>, was: seq<byte>, off: nat, s: seq<byte>, t: seq<byte>)
    requires WrittenAt(mid, was, off, s) && WrittenAt(now, mid, off + |s|, t)
    ensures WrittenAt(now, was, off, s + t)
  {
  }

  method WriteRaw(s: seq<byte>, target: array<byte>, off: nat) returns (end: nat)
    requires off + |s| <= target.Length
    modifies target
    ensures end == off + |s| && WrittenAt(target[..], old(target[..]), off, s)
  {
    forall k | 0 <= k < |s| {
      target[off + k] := s[k];
    }
    end := off + |s|;
  }

  /** SerializeWithCachedSizesToArray(): into an array with room for ByteSize octets it writes
      exactly those octets and touches no other. */
  method SerializeToArray(schema: Schema, m: Msg, target: array<byte>, off: nat) returns (end: nat)
    requires Typed(schema, m) && off + ByteSize(schema, m) <= target.Length
    modifies target
    ensures end == off + ByteSize(schema, m)
    ensures WrittenAt(target[..], old(target[..]), off, Serialize(schema, m))
    decreases schema
  {
    ghost var was := target[..];
    CodecLaws.SizeIsLength(schema, m);
    end := off;
    ghost var done: seq<byte> := [];
    var k: nat := 0;
    while k < |schema.fields|
      invariant k <= |schema.fields| && end == off + |done|
      invariant WrittenAt(target[..], was, off, done)
      invariant done + SerializeFrom(schema, m, k) == Serialize(schema, m)
    {
      ghost var mid := target[..];
      ghost var w := WriteField(schema.fields[k], m.slots[k]);
      TakeNext(schema, m, k, done);
      if m.slots[k].Some? {
        end := WriteFieldToArray(schema, m, k, target, end);
      } else {
        assert w == [] && target[..] == mid;
      }
      WriteTwice(target[..], mid, was, off, done, w);
      done, k := done + w, k + 1;
    }
  }

  lemma TakeNext(schema: Schema, m: Msg, k: nat, done: seq<byte>)
    requires Typed(schema, m) && k < |schema.fields|
    requires done + SerializeFrom(schema, m, k) == Serialize(schema, m)
    ensures done + WriteField(schema.fields[k], m.slots[k]) + SerializeFrom(schema, m, k + 1) == Serialize(schema, m)
    ensures |done| + |WriteField(schema.fields[k], m.slots[k])| <= |Serialize(schema, m)|
  {
    var w, rest := WriteField(schema.fields[k], m.slots[k]), SerializeFrom(schema, m, k + 1);
    assert done + w + rest == done + (w + rest);
  }

  /** One field that is present: its tag, then its value. */
  method WriteFieldToArray(schema: Schema, m: Msg, k: nat, target: array<byte>, off: nat) returns (end: nat)
    requires Typed(schema, m) && k < |schema.fields| && m.slots[k].Some?
    requires off + |WriteField(schema.fields[k], m.slots[k])| <= target.Length
    modifies target
    ensures end == off + |WriteField(schema.fields[k], m.slots[k])|
    ensures WrittenAt(target[..], old(target[..]), off, WriteField(schema.fields[k], m.slots[k]))
    decreases schema, 0
  {
    var f, v := schema.fields[k], m.slots[k].value;
    ghost var was := target[..];
    var tag := Varint.Encode(Tag(f));
    end := WriteRaw(tag, target, off);
    ghost var mid := target[..];
    end := WriteValueToArray(f.kind, v, target, end);
    WriteTwice(target[..], mid, was, off, tag, WriteValue(f.kind, v));
  }

  method WriteValueToArray(kind: Kind, v: Value, target: array<byte>, off: nat) returns (end: nat)
    requires TypedValue(kind, v) && off + |WriteValue(kind, v)| <= target.Length
    modifies target
    ensures end == off + |WriteValue(kind, v)|
    ensures WrittenAt(target[..], old(target[..]), off, WriteValue(kind, v))
    decreases kind
  {
    match kind {
      case Int32 => end := WriteRaw(Varint.Encode(Varint.ToWire(v.i)), target, off);
      case Int64 => end := WriteRaw(Varint.Encode(Varint.ToWire(v.i)), target, off);
      case Octets => end := WriteRaw(Varint.Encode(|v.b|) + v.b, target, off);
      case Message(sub) =>
        ghost var was := target[..];
        CodecLaws.SizeIsLength(sub, v.m);
        var prefix := Varint.Encode(ByteSize(sub, v.m));
        end := WriteRaw(prefix, target, off);
        ghost var mid := target[..];
        end := SerializeToArray(sub, v.m, target, end);
        WriteTwice(target[..], mid, was, off, prefix, Serialize(sub, v.m));
    }
  }

  /** SerializeToString(): one array of ByteSize octets, filled to its last octet. */
  method SerializeToString(schema: Schema, m: Msg) returns (out: seq<byte>)
    requires Typed(schema, m)
    ensures out == Serialize(schema, m)
  {
    var size := ComputeByteSize(schema, m);
    CodecLaws.SizeIsLength(schema, m);
    var target := new byte[size](_ => 0);
    var end := SerializeToArray(schema, m, target, 0);
    out := target[..];
  }

  /** ExpectTag(): only the one- or two-octet form of the tag is recognised. */
  predicate ExpectTag(s: seq<byte>, tag: nat) {
    if tag < 0x80 then |s| >= 1 && s[0] == tag
    else if tag < 0x4000 then |s| >= 2 && s[0] == tag % 0x80 + 0x80 && s[1] == tag / 0x80
    else false
  }

  /** A tag that ExpectTag recognises is the tag the plain loop would read. */
  lemma ExpectedTagIsRead(s: seq<byte>, tag: nat)
    requires ExpectTag(s, tag)
    ensures tag < 0x4000 && |Varint.Encode(tag)| <= |s|
    ensures Read32(s) == Some(Varint.Read(tag, |Varint.Encode(tag)|))
  {
    assert s[..|Varint.Encode(tag)|] == Varint.Encode(tag);
    assert s == Varint.Encode(tag) + s[|Varint.Encode(tag)|..];
    Varint.RoundTrip64(tag, s[|Varint.Encode(tag)|..]);
  }

  /** MergePartialFromCodedStream(): after a field the loop looks for the tag of the next
      declared field and, when it is there, reads that field without going back to the switch;
      after the last one it stops at once when the input is over.  The result is that of the
      plain loop on every input. */
  method MergePartialFromCodedStream(schema: Schema, input: seq<byte>, into: Msg) returns (r: Option<Msg>)
    requires ValidSchema(schema) && Typed(schema, into)
    ensures r == ParseInto(schema, input, into)
    decreases schema
  {
    var s, m := input, into;
    while s != []
      invariant Typed(schema, m)
      invariant ParseInto(schema, s, m) == ParseInto(schema, input, into)
      decreases |s|
    {
      var tag := Read32(s);
      if tag.None? || tag.value.value == 0 {
        return None;
      }
      var field := FieldOfTag(schema, tag.value.value);
      var rest := s[tag.value.used..];
      if field.Some? {
        var k: nat := field.value;
        TagLeadsToField(schema, s, m, tag.value.value, tag.value.used, k);
        var jump := true;
        while jump
          invariant Typed(schema, m)
          invariant |rest| < |s|
          invariant k < |schema.fields|
          invariant jump ==> ParseInto(schema, input, into) == ReadOn(schema, k, rest, m)
          invariant !jump ==> ParseInto(schema, input, into) == ParseInto(schema, rest, m)
          decreases |rest|, jump
        {
          var v := ReadField(schema.fields[k].kind, rest, m.slots[k]);
          if v.None? {
            return None;
          }
          rest, m := rest[v.value.1..], Msg(m.slots[k := Some(v.value.0)]);
          if k + 1 == |schema.fields| {
            if rest == [] {
              return Some(m);
            }
            jump := false;
          } else if ExpectTag(rest, Tag(schema.fields[k + 1])) {
            JumpIsLoop(schema, k + 1, rest, m);
            rest := rest[|Varint.Encode(Tag(schema.fields[k + 1]))|..];
            k := k + 1;
          } else {
            jump := false;
          }
        }
      } else {
        TagIsSkipped(schema, s, m, tag.value.value, tag.value.used);
        var skipped := SkipField(tag.value.value % 8, rest);
        if skipped.None? {
          return None;
        }
        rest := rest[skipped.value..];
      }
      s := rest;
    }
    r := Some(m);
  }

  /** The parse from the point just after field k's tag. */
  function ReadOn(schema: Schema, k: nat, rest: seq<byte>, m: Msg): (r: Option<Msg>)
    requires Typed(schema, m) && k < |schema.fields|
  {
    match ReadValue(schema.fields[k].kind, rest, m.slots[k])
    case None => None
    case Some((v, used)) => ParseInto(schema, rest[used..], Msg(m.slots[k := Some(v)]))
  }

  /** A tag of field k, however it was written, makes the plain loop read field k. */
  lemma TagLeadsToField(schema: Schema, s: seq<byte>, m: Msg, tag: nat, used: nat, k: nat)
    requires Typed(schema, m) && k < |schema.fields|
    requires Read32(s) == Some(Varint.Read(tag, used)) && tag != 0
    requires FieldOfTag(schema, tag) == Some(k)
    ensures ParseInto(schema, s, m) == ReadOn(schema, k, s[used..], m)
  {
    var v := ReadValue(schema.fields[k].kind, s[used..], m.slots[k]);
    if v.Some? {
      var next := Msg(m.slots[k := Some(v.value.0)]);
      assert ParseField(schema, s, m) == Some((next, used + v.value.1)) by {
        CodecLaws.ParseFieldIs(schema, s, m, tag, used, next, v.value.1);
      }
      CodecLaws.DropTwice(s, used, v.value.1);
      CodecLaws.ParseIntoStep(schema, s, m, next, used + v.value.1);
    } else {
      CodecLaws.ParseFieldFails(schema, s, m, tag, used);
    }
  }

  lemma TagIsSkipped(schema: Schema, s: seq<byte>, m: Msg, tag: nat, used: nat)
    requires Typed(schema, m)
    requires Read32(s) == Some(Varint.Read(tag, used)) && tag != 0
    requires FieldOfTag(schema, tag).None?
    ensures ParseInto(schema, s, m)
         == match SkipField(tag % 8, s[used..])
            case None => None
            case Some(n) => ParseInto(schema, s[used..][n..], m)
  {
    var n := SkipField(tag % 8, s[used..]);
    if n.Some? {
      CodecLaws.ParseFieldIs(schema, s, m, tag, used, m, n.value);
      CodecLaws.DropTwice(s, used, n.value);
      CodecLaws.ParseIntoStep(schema, s, m, m, used + n.value);
    } else {
      CodecLaws.ParseFieldFails(schema, s, m, tag, used);
    }
  }

  lemma JumpIsLoop(schema: Schema, k: nat, s: seq<byte>, m: Msg)
    requires ValidSchema(schema) && Typed(schema, m) && k < |schema.fields| && ExpectTag(s, Tag(schema.fields[k]))
    ensures |Varint.Encode(Tag(schema.fields[k]))| <= |s|
    ensures ParseInto(schema, s, m) == ReadOn(schema, k, s[|Varint.Encode(Tag(schema.fields[k]))|..], m)
  {
    var tag := Tag(schema.fields[k]);
    ExpectedTagIsRead(s, tag);
    CodecLaws.TagFindsField(schema, k);
    TagLeadsToField(schema, s, m, tag, |Varint.Encode(tag)|, k);
  }

  /** ReadPrimitive, ReadBytes and ReadMessageNoVirtual. */
  method ReadField(kind: Kind, s: seq<byte>, slot: Option<Value>) returns (r: Option<(Value, nat)>)
    requires CodecLaws.ValidKind(kind) && TypedSlot(kind, slot)
    ensures r == ReadValue(kind, s, slot)
    decreases kind
  {
    match kind {
      case Message(sub) =>
        var d := ReadLimited(s);
        if d.None? {
          return None;
        }
        var m := MergePartialFromCodedStream(sub, d.value.0, Mutable(sub, slot));
        r := if m.None? then None else Some((MsgValue(m.value), d.value.1));
      case _ =>
        r := ReadValue(kind, s, slot);
    }
  }
}
