/** What the wire codec promises, for every schema: sizes are exact, reading what was written
    gives the message back, and reading one serialized message after another merges them. */
module CodecLaws {
  import opened Bytes
  import opened Codec
  import Varint

  // ---------- sizes are exact at every level ----------

  lemma {:induction false} SizeIsLength(schema: Schema, m: Msg)
    requires Typed(schema, m)
    ensures |Serialize(schema, m)| == ByteSize(schema, m)
    decreases schema, 1
  {
    SizeIsLengthFrom(schema, m, 0);
  }

  lemma {:induction false} SizeIsLengthFrom(schema: Schema, m: Msg, k: nat)
    requires Typed(schema, m) && k <= |schema.fields|
    ensures |SerializeFrom(schema, m, k)| == SizeFrom(schema, m, k)
    decreases schema, 0, |schema.fields| - k
  {
    if k < |schema.fields| {
      var f := schema.fields[k];
      if m.slots[k].Some? {
        Varint.EncodeSize(Tag(f));
        ValueSizeIsLength(f.kind, m.slots[k].value);
      }
      SizeIsLengthFrom(schema, m, k + 1);
    }
  }

  lemma {:induction false} ValueSizeIsLength(kind: Kind, v: Value)
    requires TypedValue(kind, v)
    ensures |WriteValue(kind, v)| == ValueSize(kind, v)
    decreases kind
  {
    match kind
    case Int32 => Varint.EncodeSize(Varint.ToWire(v.i));
    case Int64 => Varint.EncodeSize(Varint.ToWire(v.i));
    case Octets => Varint.EncodeSize(|v.b|);
    case Message(sub) =>
      Varint.EncodeSize(ByteSize(sub, v.m));
      SizeIsLength(sub, v.m);
  }

  // ---------- reading is a left action of concatenation ----------

  lemma DelimitedAppend(s: seq<byte>, t: seq<byte>)
    requires ReadDelimited(s).Some?
    ensures ReadDelimited(s + t) == ReadDelimited(s)
  {
    Varint.DecodeAppend(s, t, Varint.MAX_VARINT_BYTES);
    var r := Read32(s).value;
    assert (s + t)[r.used..r.used + r.value] == s[r.used..r.used + r.value];
  }

  lemma LimitedAppend(kind: Kind, s: seq<byte>, t: seq<byte>)
    requires kind.Message? && ReadLimited(s).Some? && Short(kind, s) == 0
    ensures ReadLimited(s + t) == ReadLimited(s)
  {
    Varint.DecodeAppend(s, t, Varint.MAX_VARINT_BYTES);
    var r := Read32(s).value;
    assert (s + t)[r.used..r.used + r.value] == s[r.used..r.used + r.value];
  }

  /** A value that does not run past the end is read the same with more behind it. */
  lemma ReadValueAppend(kind: Kind, s: seq<byte>, t: seq<byte>, slot: Option<Value>)
    requires TypedSlot(kind, slot) && ReadValue(kind, s, slot).Some? && Short(kind, s) == 0
    ensures ReadValue(kind, s + t, slot) == ReadValue(kind, s, slot)
  {
    match kind
    case Int32 => Varint.DecodeAppend(s, t, Varint.MAX_VARINT_BYTES);
    case Int64 => Varint.DecodeAppend(s, t, Varint.MAX_VARINT_BYTES);
    case Octets => DelimitedAppend(s, t);
    case Message(sub) => LimitedAppend(kind, s, t);
  }

  lemma SkipAppend(wire: nat, s: seq<byte>, t: seq<byte>)
    requires SkipField(wire, s).Some?
    ensures SkipField(wire, s + t) == SkipField(wire, s)
  {
    if wire == WIRETYPE_VARINT {
      Varint.DecodeAppend(s, t, Varint.MAX_VARINT_BYTES);
    } else if wire == WIRETYPE_LENGTH_DELIMITED {
      DelimitedAppend(s, t);
    }
  }

  /** The field at the front of what follows a tag is not a submessage that runs past the end. */
  predicate Complete(schema: Schema, tag: nat, rest: seq<byte>) {
    FieldOfTag(schema, tag).Some? ==> Short(schema.fields[FieldOfTag(schema, tag).value].kind, rest) == 0
  }

  lemma ParseTaggedAppend(schema: Schema, tag: nat, s: seq<byte>, t: seq<byte>, m: Msg)
    requires Typed(schema, m) && ParseTagged(schema, tag, s, m).Some? && Complete(schema, tag, s)
    ensures ParseTagged(schema, tag, s + t, m) == ParseTagged(schema, tag, s, m)
  {
    match FieldOfTag(schema, tag)
    case Some(k) => ReadValueAppend(schema.fields[k].kind, s, t, m.slots[k]);
    case None => SkipAppend(tag % 8, s, t);
  }

  lemma TagAppend(s: seq<byte>, t: seq<byte>)
    requires Read32(s).Some?
    ensures Read32(s + t) == Read32(s) && (s + t)[Read32(s).value.used..] == s[Read32(s).value.used..] + t
  {
    Varint.DecodeAppend(s, t, Varint.MAX_VARINT_BYTES);
  }

  lemma ParseFieldAppend(schema: Schema, s: seq<byte>, t: seq<byte>, m: Msg)
    requires Typed(schema, m) && ParseField(schema, s, m).Some?
    requires var tag := Read32(s).value; Complete(schema, tag.value, s[tag.used..])
    ensures ParseField(schema, s + t, m) == ParseField(schema, s, m)
  {
    TagAppend(s, t);
    var tag := Read32(s).value;
    ParseTaggedAppend(schema, tag.value, s[tag.used..], t, m);
  }

  /** How many octets a value takes does not depend on what the slot held. */
  lemma ReadValueUsed(kind: Kind, s: seq<byte>, slot: Option<Value>)
    requires TypedSlot(kind, slot) && !kind.Message?
    ensures ReadValue(kind, s, slot) == ReadValue(kind, s, None)
  {
  }

  lemma WantsAfterField(schema: Schema, tag: nat, rest: seq<byte>, m: Msg)
    requires Typed(schema, m) && ParseTagged(schema, tag, rest, m).Some? && Complete(schema, tag, rest)
    ensures WantsAfter(schema, tag, rest) == Wants(schema, rest[ParseTagged(schema, tag, rest, m).value.1..])
  {
    var k := FieldOfTag(schema, tag);
    if k.Some? && !schema.fields[k.value].kind.Message? {
      ReadValueUsed(schema.fields[k.value].kind, rest, m.slots[k.value]);
    }
  }

  lemma DropTwice(s: seq<byte>, i: nat, j: nat)
    requires i + j <= |s|
    ensures s[i..][j..] == s[i + j..]
  {
  }

  /** What one turn of the tag loop consists of. */
  lemma ParseFieldParts(schema: Schema, s: seq<byte>, m: Msg)
    requires Typed(schema, m) && ParseField(schema, s, m).Some?
    ensures Read32(s).Some? && Read32(s).value.value != 0
    ensures var tag := Read32(s).value;
      && ParseTagged(schema, tag.value, s[tag.used..], m).Some?
      && var (next, n) := ParseTagged(schema, tag.value, s[tag.used..], m).value;
         ParseField(schema, s, m) == Some((next, tag.used + n))
  {
  }

  lemma WantsAfterTag(schema: Schema, s: seq<byte>, tag: nat, used: nat)
    requires s != [] && Read32(s) == Some(Varint.Read(tag, used)) && tag != 0
    ensures Wants(schema, s) == WantsAfter(schema, tag, s[used..])
  {
  }

  /** After a complete field the input wants what the rest of it wants. */
  lemma WantsTheRest(schema: Schema, s: seq<byte>, m: Msg, tag: nat, used: nat, n: nat)
    requires Typed(schema, m) && s != [] && Read32(s) == Some(Varint.Read(tag, used)) && tag != 0
    requires ParseTagged(schema, tag, s[used..], m).Some? && ParseTagged(schema, tag, s[used..], m).value.1 == n
    requires Complete(schema, tag, s[used..])
    ensures Wants(schema, s) == Wants(schema, s[used + n..])
  {
    WantsAfterTag(schema, s, tag, used);
    WantsAfterField(schema, tag, s[used..], m);
    DropTwice(s, used, n);
  }

  /** Octets that parse on their own, and do not end inside a submessage, can be read first and
      the rest later. */
  lemma {:induction false} ParseConcat(schema: Schema, s: seq<byte>, t: seq<byte>, m: Msg)
    requires Typed(schema, m) && ParseInto(schema, s, m).Some? && Wants(schema, s) == 0
    ensures ParseInto(schema, s + t, m) == ParseInto(schema, t, ParseInto(schema, s, m).value)
    decreases |s|
  {
    if s == [] {
      assert s + t == t;
    } else {
      ParseFieldParts(schema, s, m);
      var tag := Read32(s).value;
      var (next, used) := ParseField(schema, s, m).value;
      WantsAfterTag(schema, s, tag.value, tag.used);
      CompleteOrWanting(schema, tag.value, s[tag.used..]);
      WantsTheRest(schema, s, m, tag.value, tag.used, used - tag.used);
      ParseIntoStep(schema, s, m, next, used);
      ParseConcat(schema, s[used..], t, next);
      ParseFieldAppend(schema, s, t, m);
      ParseIntoStep(schema, s + t, m, next, used);
      DropAppend(s, t, used);
    }
  }

  lemma CompleteOrWanting(schema: Schema, tag: nat, rest: seq<byte>)
    ensures Complete(schema, tag, rest) || WantsAfter(schema, tag, rest) > 0
  {
  }

  // ---------- and only those ----------

  /** A fixed64 and a fixed32 field, which no schema declares. */
  const FIXED64: seq<byte> := [9, 0, 0, 0, 0, 0, 0, 0, 0]
  const FIXED32: seq<byte> := [13, 0, 0, 0, 0]

  /** Whole fields that anybody skips, placed so that a cut after w octets goes through one. */
  function Filler(w: nat): (t: seq<byte>)
    requires w > 0
    ensures |t| > w
  {
    if w < 9 then FIXED64 else if w == 9 then FIXED32 + FIXED64 else FIXED64 + Filler(w - 9)
  }

  lemma SkipsFixed(schema: Schema, head: seq<byte>, rest: seq<byte>, m: Msg)
    requires Typed(schema, m) && (head == FIXED64 || head == FIXED32)
    ensures ParseInto(schema, head + rest, m) == ParseInto(schema, rest, m)
  {
    var s := head + rest;
    assert s[0] == head[0] && Varint.Decode(s, Varint.MAX_VARINT_BYTES) == Some(Varint.Read(head[0] as nat, 1));
    assert ParseTagged(schema, head[0] as nat, s[1..], m) == Some((m, |head| - 1));
    ParseFieldIs(schema, s, m, head[0] as nat, 1, m, |head| - 1);
    assert s[|head|..] == rest;
  }

  lemma CutFixed(schema: Schema, w: nat, m: Msg)
    requires Typed(schema, m) && 0 < w < 9
    ensures ParseInto(schema, FIXED64[..w], m).None?
  {
    var s := FIXED64[..w];
    assert s[0] == 9 && Varint.Decode(s, Varint.MAX_VARINT_BYTES) == Some(Varint.Read(9, 1));
    assert FieldOfTag(schema, 9).None? && |s[1..]| < 8;
    ParseFieldFails(schema, s, m, 9, 1);
  }

  lemma {:induction false} FillerIsSkipped(schema: Schema, w: nat, m: Msg)
    requires Typed(schema, m) && w > 0
    ensures ParseInto(schema, Filler(w), m) == Some(m)
    decreases w
  {
    if w < 9 {
      SkipsFixed(schema, FIXED64, [], m);
      assert FIXED64 + [] == FIXED64;
    } else if w == 9 {
      SkipsFixed(schema, FIXED32, FIXED64, m);
      SkipsFixed(schema, FIXED64, [], m);
      assert FIXED64 + [] == FIXED64;
    } else {
      SkipsFixed(schema, FIXED64, Filler(w - 9), m);
      FillerIsSkipped(schema, w - 9, m);
    }
  }

  lemma {:induction false} FillerDoesNotCut(schema: Schema, w: nat, m: Msg)
    requires Typed(schema, m) && w > 0
    ensures ParseInto(schema, Filler(w)[..w], m).None?
    decreases w
  {
    if w < 9 {
      CutFixed(schema, w, m);
    } else if w == 9 {
      SkipsFixed(schema, FIXED32, FIXED64[..4], m);
      assert (FIXED32 + FIXED64)[..9] == FIXED32 + FIXED64[..4];
      CutFixed(schema, 4, m);
    } else {
      SkipsFixed(schema, FIXED64, Filler(w - 9)[..w - 9], m);
      assert (FIXED64 + Filler(w - 9))[..w] == FIXED64 + Filler(w - 9)[..w - 9];
      FillerDoesNotCut(schema, w - 9, m);
    }
  }

  /** What follows input that ends inside a submessage is read into it, up to the octets wanted;
      when those cannot be read there the whole parse fails. */
  lemma {:induction false} WantedIsReadInside(schema: Schema, s: seq<byte>, m: Msg, t: seq<byte>, r: nat)
    requires Typed(schema, m) && ParseInto(schema, s, m).Some? && Wants(schema, s) > 0
    requires Hits(t, r, Wants(schema, s))
    ensures ParseInto(schema, s + t, m).None?
    decreases schema, 2, |s|
  {
    ParseFieldParts(schema, s, m);
    var (next, used) := ParseField(schema, s, m).value;
    if Whole(schema, s) {
      WholeFieldThenRest(schema, s, m, next, used);
      WantedIsReadInside(schema, s[used..], next, t, r);
      FailsLater(schema, s, t, m, next, used);
    } else {
      var tag := Read32(s).value;
      WantsAfterTag(schema, s, tag.value, tag.used);
      CutFieldFails(schema, s, m, t, r);
    }
  }

  /** The field at the front is all there. */
  predicate Whole(schema: Schema, s: seq<byte>) {
    Read32(s).Some? && var tag := Read32(s).value; Complete(schema, tag.value, s[tag.used..])
  }

  lemma WholeFieldThenRest(schema: Schema, s: seq<byte>, m: Msg, next: Msg, used: nat)
    requires Typed(schema, m) && ParseField(schema, s, m) == Some((next, used)) && s != [] && Whole(schema, s)
    ensures Wants(schema, s) == Wants(schema, s[used..])
    ensures ParseInto(schema, s, m) == ParseInto(schema, s[used..], next)
  {
    ParseFieldParts(schema, s, m);
    var tag := Read32(s).value;
    WantsTheRest(schema, s, m, tag.value, tag.used, used - tag.used);
    ParseIntoStep(schema, s, m, next, used);
  }

  lemma FailsLater(schema: Schema, s: seq<byte>, t: seq<byte>, m: Msg, next: Msg, used: nat)
    requires Typed(schema, m) && ParseField(schema, s, m) == Some((next, used)) && Whole(schema, s)
    requires used <= |s| && Typed(schema, next) && ParseInto(schema, s[used..] + t, next).None?
    ensures ParseInto(schema, s + t, m).None?
  {
    ParseFieldAppend(schema, s, t, m);
    DropAppend(s, t, used);
    ParseIntoStep(schema, s + t, m, next, used);
  }

  /** t is cut by its first r octets, which are as many as are wanted or all there are. */
  ghost predicate Hits(t: seq<byte>, r: nat, wants: nat) {
    0 < r == (if |t| <= wants then |t| else wants) && t[..r] == Filler(r)[..r]
  }

  lemma ParseIntoStep(schema: Schema, s: seq<byte>, m: Msg, next: Msg, used: nat)
    requires Typed(schema, m) && s != [] && ParseField(schema, s, m) == Some((next, used))
    ensures ParseInto(schema, s, m) == ParseInto(schema, s[used..], next)
  {
  }

  lemma DropAppend(s: seq<byte>, t: seq<byte>, n: nat)
    requires n <= |s|
    ensures (s + t)[n..] == s[n..] + t
  {
  }

  lemma {:induction false} CutFieldFails(schema: Schema, s: seq<byte>, m: Msg, t: seq<byte>, r: nat)
    requires Typed(schema, m) && s != [] && ParseField(schema, s, m).Some?
    requires Read32(s).Some? && Read32(s).value.value != 0
    requires var tag := Read32(s).value;
      !Complete(schema, tag.value, s[tag.used..]) && Hits(t, r, WantsAfter(schema, tag.value, s[tag.used..]))
    ensures ParseInto(schema, s + t, m).None?
    decreases schema, 1
  {
    ParseFieldParts(schema, s, m);
    var tag := Read32(s).value;
    var rest := s[tag.used..];
    var k := FieldOfTag(schema, tag.value).value;
    CutFieldHasValue(schema, tag.value, k, rest, m);
    WantsOfCut(schema, tag.value, k, rest);
    CutValueFails(schema, k, rest, m.slots[k], t, r);
    CutTagFails(schema, tag.value, k, rest + t, m);
    TagAppend(s, t);
    ParseFieldFails(schema, s + t, m, tag.value, tag.used);
  }

  lemma CutFieldHasValue(schema: Schema, tag: nat, k: nat, rest: seq<byte>, m: Msg)
    requires Typed(schema, m) && ParseTagged(schema, tag, rest, m).Some? && FieldOfTag(schema, tag) == Some(k)
    ensures k < |schema.fields| && ReadValue(schema.fields[k].kind, rest, m.slots[k]).Some?
  {
  }

  lemma CutTagFails(schema: Schema, tag: nat, k: nat, rest: seq<byte>, m: Msg)
    requires Typed(schema, m) && FieldOfTag(schema, tag) == Some(k) && k < |schema.fields|
    requires ReadValue(schema.fields[k].kind, rest, m.slots[k]).None?
    ensures ParseTagged(schema, tag, rest, m).None?
  {
  }

  lemma WantsOfCut(schema: Schema, tag: nat, k: nat, rest: seq<byte>)
    requires FieldOfTag(schema, tag) == Some(k) && k < |schema.fields| && Short(schema.fields[k].kind, rest) > 0
    requires ReadLimited(rest).Some?
    ensures var kind := schema.fields[k].kind;
      var inner := Wants(kind.sub, ReadLimited(rest).value.0);
      WantsAfter(schema, tag, rest) == if 0 < inner < Short(kind, rest) then inner else Short(kind, rest)
  {
  }

  lemma {:induction false} CutValueFails(schema: Schema, k: nat, rest: seq<byte>, slot: Option<Value>, t: seq<byte>, r: nat)
    requires k < |schema.fields| && TypedSlot(schema.fields[k].kind, slot)
    requires Short(schema.fields[k].kind, rest) > 0 && ReadValue(schema.fields[k].kind, rest, slot).Some?
    requires var kind := schema.fields[k].kind;
      var inner := Wants(kind.sub, ReadLimited(rest).value.0);
      Hits(t, r, if 0 < inner < Short(kind, rest) then inner else Short(kind, rest))
    ensures ReadValue(schema.fields[k].kind, rest + t, slot).None?
    decreases schema, 0
  {
    var kind := schema.fields[k].kind;
    var sub, into := kind.sub, Mutable(kind.sub, slot);
    var c := ReadLimited(rest).value.0;
    var missing := Short(kind, rest);
    var more := t[..if |t| <= missing then |t| else missing];
    ContentGrows(kind, rest, t, more);
    assert more[..r] == t[..r];
    if Wants(sub, c) == 0 {
      assert more == t[..r];
      ParseConcat(sub, c, more, into);
      FillerDoesNotCut(sub, r, ParseInto(sub, c, into).value);
    } else {
      WantedIsReadInside(sub, c, into, more, r);
    }
  }

  lemma ContentGrows(kind: Kind, rest: seq<byte>, t: seq<byte>, more: seq<byte>)
    requires Short(kind, rest) > 0 && more == t[..if |t| <= Short(kind, rest) then |t| else Short(kind, rest)]
    ensures ReadLimited(rest).Some? && ReadLimited(rest + t).Some?
    ensures ReadLimited(rest + t).value.0 == ReadLimited(rest).value.0 + more
  {
    Varint.DecodeAppend(rest, t, Varint.MAX_VARINT_BYTES);
    var r := Read32(rest).value;
    assert (rest + t)[r.used..] == rest[r.used..] + t;
  }

  /** The condition is exact: when s does end inside a submessage there are octets that can be read
      after it but not together with it. */
  lemma CutOffInputDoesNotConcat(schema: Schema, s: seq<byte>, m: Msg) returns (t: seq<byte>)
    requires Typed(schema, m) && ParseInto(schema, s, m).Some? && Wants(schema, s) > 0
    ensures ParseInto(schema, s + t, m).None?
    ensures ParseInto(schema, t, ParseInto(schema, s, m).value) == ParseInto(schema, s, m)
  {
    var w := Wants(schema, s);
    t := Filler(w);
    WantedIsReadInside(schema, s, m, t, w);
    FillerIsSkipped(schema, w, ParseInto(schema, s, m).value);
  }

  // ---------- reading what was written ----------

  lemma Middle(p: seq<byte>, b: seq<byte>, t: seq<byte>)
    ensures p + b + t == p + (b + t) && (p + b + t)[|p|..|p| + |b|] == b
  {
  }

  lemma DelimitedRoundTrip(b: seq<byte>, t: seq<byte>)
    requires |b| < TWO_31
    ensures ReadDelimited(Varint.Encode(|b|) + b + t) == Some((b, |Varint.Encode(|b|)| + |b|))
  {
    var prefix := Varint.Encode(|b|);
    Middle(prefix, b, t);
    Varint.RoundTrip64(|b|, b + t);
  }

  lemma LimitedRoundTrip(b: seq<byte>, t: seq<byte>)
    requires |b| < TWO_31
    ensures ReadLimited(Varint.Encode(|b|) + b + t) == Some((b, |Varint.Encode(|b|)| + |b|))
  {
    DelimitedRoundTrip(b, t);
  }

  lemma {:induction false} ValueRoundTrip(kind: Kind, v: Value, slot: Option<Value>, t: seq<byte>)
    requires TypedValue(kind, v) && FitsValue(kind, v) && TypedSlot(kind, slot) && ValidKind(kind)
    ensures ReadValue(kind, WriteValue(kind, v) + t, slot)
         == Some((MergeSlot(kind, slot, Some(v)).value, |WriteValue(kind, v)|))
    decreases kind
  {
    match kind
    case Int32 =>
      Varint.RoundTrip64(Varint.ToWire(v.i), t);
      Varint.SignedRoundTrip(v.i);
    case Int64 =>
      Varint.RoundTrip64(Varint.ToWire(v.i), t);
      Varint.SignedRoundTrip(v.i);
    case Octets =>
      DelimitedRoundTrip(v.b, t);
    case Message(sub) =>
      SizeIsLength(sub, v.m);
      LimitedRoundTrip(Serialize(sub, v.m), t);
      ParseSerializedAlone(sub, Mutable(sub, slot), v.m);
  }

  ghost predicate ValidKind(kind: Kind) {
    kind.Message? ==> ValidSchema(kind.sub)
  }

  /** A tag of the schema leads to its own field. */
  lemma TagFindsField(schema: Schema, k: nat)
    requires ValidSchema(schema) && k < |schema.fields|
    ensures 0 < Tag(schema.fields[k]) < TWO_32
    ensures FieldOfTag(schema, Tag(schema.fields[k])) == Some(k)
  {
    var f := schema.fields[k];
    assert Tag(f) / 8 == f.number && Tag(f) % 8 == WireType(f.kind);
    var found := FindField(schema, f.number);
    assert found == k;
  }

  lemma TagRoundTrip(schema: Schema, k: nat, rest: seq<byte>)
    requires ValidSchema(schema) && k < |schema.fields|
    ensures var tag := Tag(schema.fields[k]);
      Read32(Varint.Encode(tag) + rest) == Some(Varint.Read(tag, |Varint.Encode(tag)|))
  {
    TagFindsField(schema, k);
    Varint.RoundTrip64(Tag(schema.fields[k]), rest);
  }

  lemma TaggedRoundTrip(schema: Schema, k: nat, v: Value, used: nat, m: Msg, rest: seq<byte>)
    requires ValidSchema(schema) && Typed(schema, m) && k < |schema.fields|
    requires ReadValue(schema.fields[k].kind, rest, m.slots[k]) == Some((v, used))
    ensures ParseTagged(schema, Tag(schema.fields[k]), rest, m) == Some((Msg(m.slots[k := Some(v)]), used))
  {
    TagFindsField(schema, k);
  }

  lemma ParseFieldIs(schema: Schema, s: seq<byte>, m: Msg, tag: nat, used: nat, next: Msg, n: nat)
    requires Typed(schema, m)
    requires Read32(s) == Some(Varint.Read(tag, used)) && tag != 0
    requires ParseTagged(schema, tag, s[used..], m) == Some((next, n))
    ensures ParseField(schema, s, m) == Some((next, used + n))
  {
  }

  lemma ParseFieldFails(schema: Schema, s: seq<byte>, m: Msg, tag: nat, used: nat)
    requires Typed(schema, m)
    requires Read32(s) == Some(Varint.Read(tag, used)) && tag != 0
    requires ParseTagged(schema, tag, s[used..], m).None?
    ensures ParseField(schema, s, m).None?
  {
  }

  /** A written field is read back into its own slot. */
  lemma FieldRoundTrip(schema: Schema, k: nat, v: Value, m: Msg, t: seq<byte>)
    requires ValidSchema(schema) && Typed(schema, m) && k < |schema.fields|
    requires TypedValue(schema.fields[k].kind, v) && FitsValue(schema.fields[k].kind, v)
    ensures ParseField(schema, WriteField(schema.fields[k], Some(v)) + t, m)
         == Some((Msg(m.slots[k := MergeSlot(schema.fields[k].kind, m.slots[k], Some(v))]),
                  |WriteField(schema.fields[k], Some(v))|))
    decreases schema, 0
  {
    var f := schema.fields[k];
    var prefix, body := Varint.Encode(Tag(f)), WriteValue(f.kind, v);
    var s := WriteField(f, Some(v)) + t;
    assert s == prefix + (body + t) && s[|prefix|..] == body + t;
    var merged := MergeSlot(f.kind, m.slots[k], Some(v));
    assert Read32(s) == Some(Varint.Read(Tag(f), |prefix|)) && Tag(f) != 0 by {
      TagRoundTrip(schema, k, body + t);
      TagFindsField(schema, k);
    }
    assert ParseTagged(schema, Tag(f), body + t, m) == Some((Msg(m.slots[k := merged]), |body|)) by {
      ValueRoundTrip(f.kind, v, m.slots[k], t);
      TaggedRoundTrip(schema, k, merged.value, |body|, m, body + t);
    }
    ParseFieldIs(schema, s, m, Tag(f), |prefix|, Msg(m.slots[k := merged]), |body|);
  }

  /** Reading a serialized message into another one merges it in, whatever comes after it. */
  lemma {:induction false} ParseSerialized(schema: Schema, a: Msg, b: Msg, t: seq<byte>)
    requires ValidSchema(schema) && Typed(schema, a) && Typed(schema, b) && Fits(schema, b)
    ensures ParseInto(schema, Serialize(schema, b) + t, a) == ParseInto(schema, t, Merge(schema, a, b))
    decreases schema, 2
  {
    ParseSerializedFrom(schema, a, b, 0, t);
  }

  lemma {:induction false} ParseSerializedFrom(schema: Schema, a: Msg, b: Msg, k: nat, t: seq<byte>)
    requires ValidSchema(schema) && Typed(schema, a) && Typed(schema, b) && Fits(schema, b) && k <= |schema.fields|
    ensures ParseInto(schema, SerializeFrom(schema, b, k) + t, a) == ParseInto(schema, t, MergeFrom(schema, a, b, k))
    decreases schema, 1, |schema.fields| - k
  {
    if k == |schema.fields| {
      assert [] + t == t;
    } else {
      var f := schema.fields[k];
      var slot := MergeSlot(f.kind, a.slots[k], b.slots[k]);
      var rest := SerializeFrom(schema, b, k + 1) + t;
      var next := Msg(a.slots[k := slot]);
      var w := WriteField(f, b.slots[k]);
      assert SerializeFrom(schema, b, k) + t == w + rest;
      if b.slots[k].Some? {
        FieldRoundTrip(schema, k, b.slots[k].value, a, rest);
        assert (w + rest)[|w|..] == rest;
      } else {
        assert next == a;
        assert [] + rest == rest;
      }
      ParseSerializedFrom(schema, next, b, k + 1, t);
    }
  }

  /** With nothing after it, the merge is the result. */
  lemma ParseSerializedAlone(schema: Schema, a: Msg, b: Msg)
    requires ValidSchema(schema) && Typed(schema, a) && Typed(schema, b) && Fits(schema, b)
    ensures ParseInto(schema, Serialize(schema, b), a) == Some(Merge(schema, a, b))
    decreases schema, 3
  {
    ParseSerialized(schema, a, b, []);
    assert Serialize(schema, b) + [] == Serialize(schema, b);
  }

  // ---------- merging ----------

  /** The first k slots of m, the others empty. */
  function FirstSlots(schema: Schema, m: Msg, k: nat): (r: Msg)
    requires Typed(schema, m) && k <= |schema.fields|
    ensures Typed(schema, r)
  {
    Msg(m.slots[..k] + seq(|schema.fields| - k, _ => None))
  }

  lemma {:induction false} MergeIntoEmpty(schema: Schema, m: Msg)
    requires Typed(schema, m)
    ensures Merge(schema, Empty(schema), m) == m
    decreases schema, 1
  {
    assert Empty(schema) == FirstSlots(schema, m, 0);
    MergeIntoEmptyFrom(schema, m, 0);
  }

  lemma {:induction false} MergeIntoEmptyFrom(schema: Schema, m: Msg, k: nat)
    requires Typed(schema, m) && k <= |schema.fields|
    ensures MergeFrom(schema, FirstSlots(schema, m, k), m, k) == m
    decreases schema, 0, |schema.fields| - k
  {
    var a := FirstSlots(schema, m, k);
    if k == |schema.fields| {
      assert a.slots == m.slots;
    } else {
      var kind := schema.fields[k].kind;
      assert a.slots[k] == None;
      if kind.Message? && m.slots[k].Some? {
        MergeIntoEmpty(kind.sub, m.slots[k].value.m);
      }
      assert MergeSlot(kind, None, m.slots[k]) == m.slots[k];
      assert a.slots[k := m.slots[k]] == FirstSlots(schema, m, k + 1).slots;
      MergeIntoEmptyFrom(schema, m, k + 1);
    }
  }

  /** Slot by slot: what a merge leaves in slot k. */
  lemma {:induction false} MergeSlots(schema: Schema, a: Msg, b: Msg, from: nat, k: nat)
    requires Typed(schema, a) && Typed(schema, b) && from <= |schema.fields| && k < |schema.fields|
    ensures MergeFrom(schema, a, b, from).slots[k]
         == if k < from then a.slots[k] else MergeSlot(schema.fields[k].kind, a.slots[k], b.slots[k])
    decreases |schema.fields| - from
  {
    if from < |schema.fields| {
      var slot := MergeSlot(schema.fields[from].kind, a.slots[from], b.slots[from]);
      MergeSlots(schema, Msg(a.slots[from := slot]), b, from + 1, k);
    }
  }

  lemma {:induction false} MergeAssociative(schema: Schema, a: Msg, b: Msg, c: Msg)
    requires Typed(schema, a) && Typed(schema, b) && Typed(schema, c)
    ensures Merge(schema, Merge(schema, a, b), c) == Merge(schema, a, Merge(schema, b, c))
    decreases schema
  {
    var left := Merge(schema, Merge(schema, a, b), c);
    var right := Merge(schema, a, Merge(schema, b, c));
    forall k | 0 <= k < |schema.fields|
      ensures left.slots[k] == right.slots[k]
    {
      var kind := schema.fields[k].kind;
      MergeSlots(schema, a, b, 0, k);
      MergeSlots(schema, Merge(schema, a, b), c, 0, k);
      MergeSlots(schema, b, c, 0, k);
      MergeSlots(schema, a, Merge(schema, b, c), 0, k);
      MergeSlotAssociative(kind, a.slots[k], b.slots[k], c.slots[k]);
    }
    assert left.slots == right.slots;
  }

  lemma {:induction false} MergeSlotAssociative(kind: Kind, a: Option<Value>, b: Option<Value>, c: Option<Value>)
    requires TypedSlot(kind, a) && TypedSlot(kind, b) && TypedSlot(kind, c)
    ensures MergeSlot(kind, MergeSlot(kind, a, b), c) == MergeSlot(kind, a, MergeSlot(kind, b, c))
    decreases kind
  {
    match kind {
      case Message(sub) =>
        if b.Some? && c.Some? {
          var ab := Merge(sub, Mutable(sub, a), b.value.m);
          var bc := Merge(sub, b.value.m, c.value.m);
          MergeAssociative(sub, Mutable(sub, a), b.value.m, c.value.m);
          assert MergeSlot(kind, a, b) == Some(MsgValue(ab));
          assert MergeSlot(kind, b, c) == Some(MsgValue(bc));
        } else if c.Some? {
          MergeIntoEmpty(sub, c.value.m);
        }
      case _ =>
    }
  }

  // ---------- fields nobody knows ----------

  /** The value of a field, as its wire type has it. */
  datatype Foreign = VarintValue(n: nat) | Fixed64(octets: seq<byte>) | Delimited(octets: seq<byte>) | Fixed32(octets: seq<byte>)

  ghost predicate Writable(v: Foreign) {
    match v
    case VarintValue(n) => n < TWO_64
    case Fixed64(octets) => |octets| == 8
    case Delimited(octets) => |octets| < TWO_31
    case Fixed32(octets) => |octets| == 4
  }

  function WireOf(v: Foreign): nat {
    match v
    case VarintValue(_) => 0
    case Fixed64(_) => 1
    case Delimited(_) => 2
    case Fixed32(_) => 5
  }

  function Written(v: Foreign): seq<byte> {
    match v
    case VarintValue(n) => Varint.Encode(n)
    case Fixed64(octets) => octets
    case Delimited(octets) => Varint.Encode(|octets|) + octets
    case Fixed32(octets) => octets
  }

  lemma ForeignIsSkipped(v: Foreign, rest: seq<byte>)
    requires Writable(v)
    ensures SkipField(WireOf(v), Written(v) + rest) == Some(|Written(v)|)
  {
    match v
    case VarintValue(n) => Varint.RoundTrip64(n, rest);
    case Fixed64(octets) =>
    case Delimited(octets) => DelimitedRoundTrip(octets, rest);
    case Fixed32(octets) =>
  }

  /** A well-formed field that the schema does not have changes nothing, wherever it stands. */
  lemma UnknownFieldIsSkipped(schema: Schema, number: nat, v: Foreign, rest: seq<byte>, m: Msg)
    requires Typed(schema, m) && Writable(v) && 1 <= number < 0x2000_0000
    requires FieldOfTag(schema, number * 8 + WireOf(v)).None?
    ensures ParseInto(schema, Varint.Encode(number * 8 + WireOf(v)) + Written(v) + rest, m) == ParseInto(schema, rest, m)
  {
    var tag := number * 8 + WireOf(v);
    var prefix, body := Varint.Encode(tag), Written(v);
    Varint.RoundTrip64(tag, body + rest);
    var s := prefix + body + rest;
    assert s == prefix + (body + rest) && s[|prefix|..] == body + rest;
    ForeignIsSkipped(v, rest);
    assert tag % 8 == WireOf(v);
    ParseFieldIs(schema, s, m, tag, |prefix|, m, |body|);
    ParseIntoStep(schema, s, m, m, |prefix| + |body|);
    assert s[|prefix| + |body|..] == rest;
  }

  /** Groups, and wire types that do not exist, end the parse. */
  lemma GroupsFail(schema: Schema, tag: nat, rest: seq<byte>, m: Msg)
    requires Typed(schema, m) && 0 < tag < TWO_32 && tag % 8 in {3, 4, 6, 7} && FieldOfTag(schema, tag).None?
    ensures ParseInto(schema, Varint.Encode(tag) + rest, m) == None
  {
    Varint.RoundTrip64(tag, rest);
    var s := Varint.Encode(tag) + rest;
    assert s[|Varint.Encode(tag)|..] == rest;
    ParseFieldFails(schema, s, m, tag, |Varint.Encode(tag)|);
  }

  // ---------- what is missing ----------

  /** The slots of path lead, through submessages that are there, to a required field that is
      not. */
  ghost predicate Missing(schema: Schema, m: Msg, path: seq<nat>)
    decreases |path|
  {
    && path != [] && path[0] < |schema.fields| && path[0] < |m.slots|
    && var field, slot := schema.fields[path[0]], m.slots[path[0]];
       if |path| == 1 then field.required && slot.None?
       else
         && field.kind.Message? && slot.Some? && slot.value.MsgValue?
         && Missing(field.kind.sub, slot.value.m, path[1..])
  }

  lemma {:induction false} MissingIsNoticed(schema: Schema, m: Msg, path: seq<nat>)
    requires Typed(schema, m) && Missing(schema, m, path)
    ensures !IsInitialized(schema, m)
    decreases |path|
  {
    if |path| > 1 {
      var field, v := schema.fields[path[0]], m.slots[path[0]].value;
      MissingIsNoticed(field.kind.sub, v.m, path[1..]);
      assert !InitializedValue(field.kind, v);
    }
  }

  lemma {:induction false} SomethingIsMissing(schema: Schema, m: Msg) returns (path: seq<nat>)
    requires Typed(schema, m) && !IsInitialized(schema, m)
    ensures Missing(schema, m, path)
    decreases schema
  {
    var k :| 0 <= k < |schema.fields| &&
      if m.slots[k].None? then schema.fields[k].required
      else !InitializedValue(schema.fields[k].kind, m.slots[k].value);
    if m.slots[k].None? {
      path := [k];
    } else {
      var rest := SomethingIsMissing(schema.fields[k].kind.sub, m.slots[k].value.m);
      path := [k] + rest;
      assert path[1..] == rest;
    }
  }

  lemma InitializedExactly(schema: Schema, m: Msg)
    requires Typed(schema, m)
    ensures !IsInitialized(schema, m) <==> exists path: seq<nat> :: Missing(schema, m, path)
  {
    forall path: seq<nat> | Missing(schema, m, path) ensures !IsInitialized(schema, m) {
      MissingIsNoticed(schema, m, path);
    }
    if !IsInitialized(schema, m) {
      var path := SomethingIsMissing(schema, m);
      assert Missing(schema, m, path);
      assert exists p: seq<nat> :: Missing(schema, m, p);
    }
  }

  // ---------- the theorems ----------

  /** A message survives the trip over the wire, unless a required field is missing at some depth:
      then, and only then, the parse fails. */
  lemma RoundTrip(schema: Schema, m: Msg)
    requires ValidSchema(schema) && Typed(schema, m) && Fits(schema, m)
    ensures Parse(schema, Serialize(schema, m)) == None <==> exists path: seq<nat> :: Missing(schema, m, path)
    ensures Parse(schema, Serialize(schema, m)).Some? ==> Parse(schema, Serialize(schema, m)) == Some(m)
  {
    ParseSerializedAlone(schema, Empty(schema), m);
    MergeIntoEmpty(schema, m);
    InitializedExactly(schema, m);
  }

  /** The same for any octets at all: what the tag loop makes of them is the result, unless a
      required field is missing. */
  lemma ParseRejects(schema: Schema, s: seq<byte>)
    ensures Parse(schema, s).None? <==>
        var r := ParseInto(schema, s, Empty(schema)); r.None? || exists path: seq<nat> :: Missing(schema, r.value, path)
    ensures Parse(schema, s).Some? ==> Parse(schema, s) == ParseInto(schema, s, Empty(schema))
  {
    var r := ParseInto(schema, s, Empty(schema));
    if r.Some? {
      InitializedExactly(schema, r.value);
    }
  }

  /** One serialized message after another reads as the first merged with the second. */
  lemma ConcatenationIsMerge(schema: Schema, a: Msg, b: Msg)
    requires ValidSchema(schema) && Typed(schema, a) && Typed(schema, b) && Fits(schema, a) && Fits(schema, b)
    ensures ParseInto(schema, Serialize(schema, a) + Serialize(schema, b), Empty(schema)) == Some(Merge(schema, a, b))
  {
    ParseSerialized(schema, Empty(schema), a, Serialize(schema, b));
    MergeIntoEmpty(schema, a);
    ParseSerializedAlone(schema, a, b);
  }

  /** Two messages never share an encoding. */
  lemma SerializeInjective(schema: Schema, a: Msg, b: Msg)
    requires ValidSchema(schema) && Typed(schema, a) && Typed(schema, b) && Fits(schema, a) && Fits(schema, b)
    requires Serialize(schema, a) == Serialize(schema, b)
    ensures a == b
  {
    ParseSerializedAlone(schema, Empty(schema), a);
    ParseSerializedAlone(schema, Empty(schema), b);
    MergeIntoEmpty(schema, a);
    MergeIntoEmpty(schema, b);
  }
}
