/** The reader as it runs, and the mix datum (backend/src/indexer/datum.ts:45-255). */
module Datum {
  import opened Bits
  import opened Bytes
  import opened Cbor
  import opened Hex
  import opened Options

  lemma NothingRead(b: seq<Byte>)
    requires b == []
    ensures ToNat(b) == 0
  {
  }

  lemma OneMoreByte(bytes: seq<Byte>, from: nat, i: nat)
    requires from + i < |bytes|
    ensures ToNat(bytes[from..from + i + 1]) == ToNat(bytes[from..from + i]) * 256 + bytes[from + i]
  {
    assert bytes[from..from + i + 1][..i] == bytes[from..from + i];
  }

  /** The word holds the value of `i` bytes. */
  ghost predicate Holds(bytes: seq<Byte>, from: nat, i: nat, v: bv32)
    requires from + i <= |bytes|
  {
    v as nat == ToNat(bytes[from..from + i])
  }

  lemma NoShift(bytes: seq<Byte>, from: nat)
    requires from <= |bytes|
    ensures Holds(bytes, from, 0, 0)
  {
    NothingRead(bytes[from..from]);
  }

  lemma HeldValue(bytes: seq<Byte>, from: nat, i: nat, v: bv32)
    requires from + i <= |bytes| && Holds(bytes, from, i, v)
    ensures v as nat == ToNat(bytes[from..from + i])
  {
  }

  lemma OneMoreShift(bytes: seq<Byte>, from: nat, i: nat, v: bv32)
    requires i < 4 && from + i < |bytes| && Holds(bytes, from, i, v)
    ensures Holds(bytes, from, i + 1, ShiftIn(v, bytes[from + i]))
  {
    hide ShiftIn, Arith.Pow, ToNat;
    ShortIsSmall(bytes[from..from + i]);
    OneMoreByte(bytes, from, i);
  }

  class CborReader {
    const bytes: seq<Byte>
    var offset: nat

    ghost predicate Valid()
      reads this
    {
      offset <= |bytes|
    }

    ghost function Left(): seq<Byte>
      reads this
      requires Valid()
    {
      bytes[offset..]
    }

    constructor (bytes: seq<Byte>)
      ensures Valid() && this.bytes == bytes && offset == 0
    {
      this.bytes, offset := bytes, 0;
    }

    method Eof() returns (b: bool)
      requires Valid()
      ensures b <==> Left() == []
    {
      b := offset >= |bytes|;
    }

    /** readBytesBigEndian (datum.ts:230-238): 32-bit arithmetic, read as unsigned at the end. */
    method ReadBytesBigEndian(n: nat) returns (r: Option<nat>)
      requires Valid() && n <= 4
      modifies `offset
      ensures Valid() && (r.None? <==> old(offset) + n > |bytes|)
      ensures r.Some? ==> offset == old(offset) + n && r.value == ToNat(bytes[old(offset)..old(offset) + n])
    {
      if offset + n > |bytes| {
        return None;
      }
      hide *;
      var v: bv32 := 0;
      NoShift(bytes, offset);
      for i := 0 to n
        invariant offset == old(offset)
        invariant Holds(bytes, offset, i, v)
      {
        OneMoreShift(bytes, offset, i, v);
        v := ShiftIn(v, bytes[offset + i]);
      }
      HeldValue(bytes, offset, n, v);
      offset := offset + n;
      r := Some(v as nat);
    }

    /** readBytesBigEndianBigint (datum.ts:240-248). */
    method ReadBytesBigEndianBigint(n: nat) returns (r: Option<nat>)
      requires Valid()
      modifies `offset
      ensures Valid() && (r.None? <==> old(offset) + n > |bytes|)
      ensures r.Some? ==> offset == old(offset) + n && r.value == ToNat(bytes[old(offset)..old(offset) + n])
    {
      if offset + n > |bytes| {
        return None;
      }
      var v: nat := 0;
      for i := 0 to n
        invariant offset == old(offset)
        invariant v == ToNat(bytes[offset..offset + i])
      {
        OneMoreByte(bytes, offset, i);
        v := v * 256 + bytes[offset + i];
      }
      offset := offset + n;
      r := Some(v);
    }

    /** readUnsignedHeaderValue (datum.ts:210-228). */
    method ReadUnsignedHeaderValue(expectedMajor: nat) returns (r: Option<nat>)
      requires Valid()
      modifies `offset
      ensures Valid() && Took(bytes, old(offset), offset, r, ReadHead(bytes[old(offset)..], expectedMajor))
    {
      HeadAt(bytes, offset, expectedMajor);
      hide *;
      if offset >= |bytes| {
        return None;
      }
      var initial := bytes[offset];
      if initial / 32 != expectedMajor {
        return None;
      }
      var additional := initial % 32;
      offset := offset + 1;
      if additional < 24 {
        return Some(additional);
      }
      if additional == 24 {
        r := ReadBytesBigEndian(1);
      } else if additional == 25 {
        r := ReadBytesBigEndian(2);
      } else if additional == 26 {
        r := ReadBytesBigEndian(4);
      } else if additional == 27 {
        r := ReadBytesBigEndianBigint(8);
      } else {
        return None;
      }
    }

    /** readByteString (datum.ts:167-202). */
    method ReadByteString() returns (r: Option<seq<Byte>>)
      requires Valid()
      modifies `offset
      ensures Valid() && Took(bytes, old(offset), offset, r, ReadBytes(bytes[old(offset)..]))
      decreases |bytes| - offset, 0
    {
      StringAt(bytes, offset);
      hide *;
      if offset >= |bytes| {
        return None;
      }
      if bytes[offset] == 0x5f {
        offset := offset + 1;
        r := ReadChunkList();
        return;
      }
      var length := ReadUnsignedHeaderValue(2);
      if length.None? || length.value > MAX_SAFE_INTEGER {
        return None;
      }
      if offset + length.value > |bytes| {
        return None;
      }
      r := Some(bytes[offset..offset + length.value]);
      offset := offset + length.value;
    }

    /** The chunked string's loop (datum.ts:173-190). */
    method ReadChunkList() returns (r: Option<seq<Byte>>)
      requires Valid()
      modifies `offset
      ensures Valid() && Took(bytes, old(offset), offset, r, ReadChunks(bytes[old(offset)..]))
      decreases |bytes| - offset, 1
    {
      ghost var from := offset;
      var chunks: seq<seq<Byte>> := [];
      NothingBefore(ReadChunks(bytes[offset..]));
      assert Chunking(bytes, from, offset, Flatten(chunks));
      hide Chunking, Flatten, ReadBytes, ReadChunks;
      while true
        invariant from <= offset <= |bytes| && Chunking(bytes, from, offset, Flatten(chunks))
        decreases |bytes| - offset
      {
        ghost var here := offset;
        ChunkingEnds(bytes, from, here, Flatten(chunks));
        if offset >= |bytes| {
          return None;
        }
        if bytes[offset] == BREAK {
          offset := offset + 1;
          var out := Join(chunks);
          return Some(out);
        }
        var chunk := ReadByteString();
        ChunkingStep(bytes, from, here, Flatten(chunks), chunk, offset);
        if chunk.None? {
          return None;
        }
        FlattenOneMore(chunks, chunk.value);
        chunks := chunks + [chunk.value];
      }
    }

    /** readValue (datum.ts:94-110). */
    method ReadOne() returns (r: Option<Value>)
      requires Valid()
      modifies `offset
      ensures Valid() && Took(bytes, old(offset), offset, r, ReadValue(bytes[old(offset)..]))
      decreases |bytes| - offset, 1
    {
      if offset >= |bytes| {
        return None;
      }
      var major := bytes[offset] / 32;
      if major == 6 {
        r := ReadTaggedValue();
      } else if major == 4 {
        var items := ReadArrayValue();
        r := if items.None? then None else Some(Array(items.value));
      } else if major == 2 {
        var b := ReadByteString();
        r := if b.None? then None else Some(ByteString(b.value));
      } else if major == 0 {
        var n := ReadUnsignedHeaderValue(0);
        r := if n.None? then None else Some(UInt(n.value));
      } else {
        r := None;
      }
    }

    /** readTaggedValue (datum.ts:112-140). */
    method ReadTaggedValue() returns (r: Option<Value>)
      requires Valid() && offset < |bytes|
      modifies `offset
      ensures Valid() && Took(bytes, old(offset), offset, r, ReadTagged(bytes[old(offset)..]))
      decreases |bytes| - offset, 0
    {
      ghost var s := Left();
      ghost var from := offset;
      var tag := ReadUnsignedHeaderValue(6);
      if tag.None? || tag.value > MAX_SAFE_INTEGER {
        return None;
      }
      assert s[offset - from..] == bytes[offset..];
      var inner := ReadOne();
      if inner.None? || !inner.value.Array? {
        return None;
      }
      var n, items := tag.value, inner.value.items;
      if 121 <= n <= 127 {
        return Some(Constr(n - 121, inner.value));
      }
      if 1280 <= n <= 1400 {
        return Some(Constr(n - 1280 + 7, inner.value));
      }
      if n == 102 {
        if |items| != 2 || !(items[0].UInt? && items[0].n <= MAX_SAFE_INTEGER) {
          return None;
        }
        return Some(Constr(items[0].n, items[1]));
      }
      r := None;
    }

    /** readArrayValue (datum.ts:142-165). */
    method ReadArrayValue() returns (r: Option<seq<Value>>)
      requires Valid() && offset < |bytes|
      modifies `offset
      ensures Valid() && Took(bytes, old(offset), offset, r, ReadArray(bytes[old(offset)..]))
      decreases |bytes| - offset, 0
    {
      ghost var s := Left();
      ghost var from := offset;
      if bytes[offset] == 0x9f {
        offset := offset + 1;
        assert bytes[offset..] == s[1..];
        r := ReadOpenItems();
        return;
      }
      var length := ReadUnsignedHeaderValue(4);
      if length.None? || length.value > MAX_SAFE_INTEGER {
        return None;
      }
      assert s[offset - from..] == bytes[offset..];
      r := ReadItems(length.value);
    }

    /** The open array's loop (datum.ts:147-154). */
    method ReadOpenItems() returns (r: Option<seq<Value>>)
      requires Valid()
      modifies `offset
      ensures Valid() && Took(bytes, old(offset), offset, r, ReadToBreak(bytes[old(offset)..]))
      decreases |bytes| - offset, 2
    {
      ghost var from := offset;
      var out: seq<Value> := [];
      NothingBefore(ReadToBreak(bytes[offset..]));
      assert Collecting(bytes, from, offset, out);
      hide Collecting, ReadToBreak, ReadValue;
      while true
        invariant from <= offset <= |bytes| && Collecting(bytes, from, offset, out)
        decreases |bytes| - offset
      {
        ghost var here := offset;
        CollectingEnds(bytes, from, here, out);
        if offset >= |bytes| {
          return None;
        }
        if bytes[offset] == BREAK {
          offset := offset + 1;
          return Some(out);
        }
        var v := ReadOne();
        CollectingStep(bytes, from, here, out, v, offset);
        if v.None? {
          return None;
        }
        out := out + [v.value];
      }
    }

    /** The counted array's loop (datum.ts:160-164). */
    method ReadItems(length: nat) returns (r: Option<seq<Value>>)
      requires Valid()
      modifies `offset
      ensures Valid() && Took(bytes, old(offset), offset, r, ReadCount(bytes[old(offset)..], length))
      decreases |bytes| - offset, 2
    {
      ghost var from := offset;
      var out: seq<Value> := [];
      NothingBefore(ReadCount(bytes[offset..], length));
      assert Counting(bytes, from, offset, length, length, out);
      hide Counting, ReadCount, ReadValue;
      for i := 0 to length
        invariant from <= offset <= |bytes| && Counting(bytes, from, offset, length, length - i, out)
      {
        ghost var here := offset;
        var v := ReadOne();
        CountingStep(bytes, from, here, length, length - i, out, v, offset);
        if v.None? {
          return None;
        }
        out := out + [v.value];
      }
      CountingEnds(bytes, from, offset, length, out);
      r := Some(out);
    }
  }

  /** The method read what the specification reads, and moved past it. */
  ghost predicate Took<T>(bytes: seq<Byte>, before: nat, after: nat, r: Option<T>, p: Parsed<T>) {
    if p.Fail? then r == None else r == Some(p.value) && after == before + p.used
  }

  lemma NothingBefore<T>(p: Parsed<seq<T>>)
    ensures Before([], 0, p) == p
  {
    if p.Got? {
      assert [] + p.value == p.value;
    }
  }

  lemma BeforeBefore<T>(a: seq<T>, m: nat, b: seq<T>, n: nat, p: Parsed<seq<T>>)
    ensures Before(a, m, Before(b, n, p)) == Before(a + b, m + n, p)
  {
    if p.Got? {
      assert a + (b + p.value) == (a + b) + p.value;
    }
  }

  lemma NoMore<T>(out: seq<T>, used: nat)
    ensures Before(out, used, Got([], 0)) == Got(out, used) && Before(out, used, Got([], 1)) == Got(out, used + 1)
  {
    assert out + [] == out;
  }

  /** What a head at an offset reads. */
  lemma HeadAt(bytes: seq<Byte>, at: nat, major: nat)
    requires at <= |bytes|
    ensures at == |bytes| || bytes[at] / 32 != major ==> ReadHead(bytes[at..], major).Fail?
    ensures at < |bytes| && bytes[at] / 32 == major ==>
              var additional := bytes[at] % 32;
              var width := if additional < 24 then 0 else if additional == 24 then 1 else if additional == 25 then 2
                           else if additional == 26 then 4 else 8;
              ReadHead(bytes[at..], major) ==
              if additional < 24 then Got(additional, 1)
              else if additional > 27 || at + 1 + width > |bytes| then Fail
              else Got(ToNat(bytes[at + 1..at + 1 + width]), 1 + width)
  {
    hide ToNat;
    if at < |bytes| && at + 1 + ArgumentBytes(bytes[at] % 32) <= |bytes| {
      assert bytes[at..][1..1 + ArgumentBytes(bytes[at] % 32)] == bytes[at + 1..at + 1 + ArgumentBytes(bytes[at] % 32)];
    }
  }

  /** What a byte string at an offset reads. */
  lemma StringAt(bytes: seq<Byte>, at: nat)
    requires at <= |bytes|
    ensures at == |bytes| ==> ReadBytes(bytes[at..]).Fail?
    ensures at < |bytes| && bytes[at] == 0x5f ==>
              var p := ReadChunks(bytes[at + 1..]);
              ReadBytes(bytes[at..]) == if p.Fail? then Fail else Got(p.value, 1 + p.used)
    ensures at < |bytes| && bytes[at] != 0x5f ==>
              var h := ReadHead(bytes[at..], 2);
              ReadBytes(bytes[at..]) ==
              if h.Fail? || h.value > MAX_SAFE_INTEGER || at + h.used + h.value > |bytes| then Fail
              else Got(bytes[at + h.used..at + h.used + h.value], h.used + h.value)
  {
    hide ReadHead, ReadChunks;
    if at < |bytes| {
      assert bytes[at..][1..] == bytes[at + 1..];
      var h := ReadHead(bytes[at..], 2);
      if h.Got? && at + h.used + h.value <= |bytes| {
        assert bytes[at..][h.used..h.used + h.value] == bytes[at + h.used..at + h.used + h.value];
      }
    }
  }

  lemma Further(bytes: seq<Byte>, here: nat, used: nat)
    requires here + used <= |bytes|
    ensures bytes[here..][used..] == bytes[here + used..]
  {
  }

  /** Mid-way through a counted array: `out` is read and `left` items are still to come. */
  ghost predicate Counting(bytes: seq<Byte>, from: nat, here: nat, length: nat, left: nat, out: seq<Value>)
    requires from <= here <= |bytes|
  {
    ReadCount(bytes[from..], length) == Before(out, here - from, ReadCount(bytes[here..], left))
  }

  lemma CountingStep(bytes: seq<Byte>, from: nat, here: nat, length: nat, left: nat, out: seq<Value>, r: Option<Value>, next: nat)
    requires from <= here <= |bytes| && left > 0 && Counting(bytes, from, here, length, left, out)
    requires next <= |bytes| && Took(bytes, here, next, r, ReadValue(bytes[here..]))
    ensures r.None? ==> ReadCount(bytes[from..], length) == Fail
    ensures r.Some? ==> from <= next && Counting(bytes, from, next, length, left - 1, out + [r.value])
  {
    hide ReadValue;
    var v := ReadValue(bytes[here..]);
    if v.Got? {
      Further(bytes, here, v.used);
      BeforeBefore(out, here - from, [v.value], v.used, ReadCount(bytes[next..], left - 1));
    }
  }

  lemma CountingEnds(bytes: seq<Byte>, from: nat, here: nat, length: nat, out: seq<Value>)
    requires from <= here <= |bytes| && Counting(bytes, from, here, length, 0, out)
    ensures ReadCount(bytes[from..], length) == Got(out, here - from)
  {
    NoMore(out, here - from);
  }

  /** Mid-way through an open array. */
  ghost predicate Collecting(bytes: seq<Byte>, from: nat, here: nat, out: seq<Value>)
    requires from <= here <= |bytes|
  {
    ReadToBreak(bytes[from..]) == Before(out, here - from, ReadToBreak(bytes[here..]))
  }

  lemma CollectingStep(bytes: seq<Byte>, from: nat, here: nat, out: seq<Value>, r: Option<Value>, next: nat)
    requires from <= here < |bytes| && bytes[here] != BREAK && Collecting(bytes, from, here, out)
    requires next <= |bytes| && Took(bytes, here, next, r, ReadValue(bytes[here..]))
    ensures r.None? ==> ReadToBreak(bytes[from..]) == Fail
    ensures r.Some? ==> from <= next && Collecting(bytes, from, next, out + [r.value])
  {
    hide ReadValue;
    var v := ReadValue(bytes[here..]);
    if v.Got? {
      Further(bytes, here, v.used);
      BeforeBefore(out, here - from, [v.value], v.used, ReadToBreak(bytes[next..]));
    }
  }

  lemma CollectingEnds(bytes: seq<Byte>, from: nat, here: nat, out: seq<Value>)
    requires from <= here <= |bytes| && Collecting(bytes, from, here, out)
    ensures here == |bytes| ==> ReadToBreak(bytes[from..]) == Fail
    ensures here < |bytes| && bytes[here] == BREAK ==> ReadToBreak(bytes[from..]) == Got(out, here + 1 - from)
  {
    hide ReadValue;
    NoMore(out, here - from);
  }

  /** Mid-way through a chunked string. */
  ghost predicate Chunking(bytes: seq<Byte>, from: nat, here: nat, out: seq<Byte>)
    requires from <= here <= |bytes|
  {
    ReadChunks(bytes[from..]) == Before(out, here - from, ReadChunks(bytes[here..]))
  }

  lemma ChunkingStep(bytes: seq<Byte>, from: nat, here: nat, out: seq<Byte>, r: Option<seq<Byte>>, next: nat)
    requires from <= here < |bytes| && bytes[here] != BREAK && Chunking(bytes, from, here, out)
    requires next <= |bytes| && Took(bytes, here, next, r, ReadBytes(bytes[here..]))
    ensures r.None? ==> ReadChunks(bytes[from..]) == Fail
    ensures r.Some? ==> from <= next && Chunking(bytes, from, next, out + r.value)
  {
    hide ReadBytes;
    var c := ReadBytes(bytes[here..]);
    if c.Got? {
      Further(bytes, here, c.used);
      BeforeBefore(out, here - from, c.value, c.used, ReadChunks(bytes[next..]));
    }
  }

  lemma ChunkingEnds(bytes: seq<Byte>, from: nat, here: nat, out: seq<Byte>)
    requires from <= here <= |bytes| && Chunking(bytes, from, here, out)
    ensures here == |bytes| ==> ReadChunks(bytes[from..]) == Fail
    ensures here < |bytes| && bytes[here] == BREAK ==> ReadChunks(bytes[from..]) == Got(out, here + 1 - from)
  {
    hide ReadBytes;
    NoMore(out, here - from);
  }

  lemma FlattenOneMore(chunks: seq<seq<Byte>>, c: seq<Byte>)
    ensures Flatten(chunks + [c]) == Flatten(chunks) + c
  {
    assert (chunks + [c])[..|chunks|] == chunks;
  }

  /** `out.set(part, cursor)`. */
  method Set(out: array<Byte>, part: seq<Byte>, cursor: nat)
    requires cursor + |part| <= out.Length
    modifies out
    ensures out[..cursor + |part|] == old(out[..cursor]) + part
  {
    for k := 0 to |part|
      invariant out[..cursor] == old(out[..cursor])
      invariant out[cursor..cursor + k] == part[..k]
    {
      out[cursor + k] := part[k];
    }
    assert out[..cursor + |part|] == out[..cursor] + out[cursor..cursor + |part|];
  }

  method TotalLength(chunks: seq<seq<Byte>>) returns (total: nat)
    ensures total == |Flatten(chunks)|
  {
    total := 0;
    for i := 0 to |chunks|
      invariant total == |Flatten(chunks[..i])|
    {
      FlattenNext(chunks, i);
      total := total + |chunks[i]|;
    }
    assert chunks[..|chunks|] == chunks;
  }

  /** The chunks copied into one buffer (datum.ts:177-185). */
  method Join(chunks: seq<seq<Byte>>) returns (r: seq<Byte>)
    ensures r == Flatten(chunks)
  {
    var total := TotalLength(chunks);
    var out := new Byte[total](_ => 0);
    var cursor := 0;
    for i := 0 to |chunks|
      invariant cursor == |Flatten(chunks[..i])| <= total && out[..cursor] == Flatten(chunks[..i])
    {
      hide Flatten;
      FlattenNext(chunks, i);
      FlattenPrefix(chunks, i + 1);
      Set(out, chunks[i], cursor);
      cursor := cursor + |chunks[i]|;
    }
    assert chunks[..|chunks|] == chunks;
    r := out[..];
  }

  // ---- the mix datum ----

  /** tryDecodeMixDatum (datum.ts:45-68). */
  method TryDecodeMixDatum(cborHex: string) returns (r: Option<DecodedMixDatum>)
    ensures r == DecodedText(cborHex)
  {
    var bytes := HexToBytes(cborHex);
    if bytes.None? {
      return None;
    }
    var reader := new CborReader(bytes.value);
    assert bytes.value[0..] == bytes.value;
    var value := reader.ReadOne();
    if value.None? {
      return None;
    }
    var eof := reader.Eof();
    if !eof {
      return None;
    }
    r := MixDatumIn(value.value);
  }

  datatype DecodedMixDatum = DecodedMixDatum(a: seq<Byte>, b: seq<Byte>)

  /** The checks on the value read (datum.ts:56-64). */
  function MixDatumIn(v: Value): Option<DecodedMixDatum> {
    if !v.Constr? || v.tag != 0 then None
    else if !v.fields.Array? || |v.fields.items| != 2 then None
    else
      var a, b := v.fields.items[0], v.fields.items[1];
      if !a.ByteString? || !b.ByteString? then None
      else if |a.b| != 48 || |b.b| != 48 then None
      else if a.b == b.b then None
      else Some(DecodedMixDatum(a.b, b.b))
  }

  function Decoded(bytes: seq<Byte>): Option<DecodedMixDatum> {
    var p := ReadValue(bytes);
    if p.Fail? || p.used != |bytes| then None else MixDatumIn(p.value)
  }

  function DecodedText(cborHex: string): Option<DecodedMixDatum> {
    var bytes := BytesOfHex(cborHex);
    if bytes.None? then None else Decoded(bytes.value)
  }

  /** An array, counted or open, of two byte strings, each whole or in chunks. */
  predicate TwoStrings(item: Item, a: seq<Byte>, b: seq<Byte>) {
    (item.ArrayItem? || item.OpenArrayItem?) && item.items.Cons? && item.items.tail.Cons? && item.items.tail.tail.Nil? &&
    IsBytes(item.items.head) && BytesOf(item.items.head) == a &&
    IsBytes(item.items.tail.head) && BytesOf(item.items.tail.head) == b
  }

  /** Tag 121 over the two strings, or the general form: tag 102 over an array of 0 and the two
      strings. */
  predicate EncodesMixDatum(item: Item, a: seq<Byte>, b: seq<Byte>) {
    && item.TagItem?
    && (item.h.n == 121 ==> TwoStrings(item.payload, a, b))
    && (item.h.n == 121 || (item.h.n == 102 &&
                            (item.payload.ArrayItem? || item.payload.OpenArrayItem?) &&
                            item.payload.items.Cons? && item.payload.items.tail.Cons? && item.payload.items.tail.tail.Nil? &&
                            item.payload.items.head.UIntItem? && item.payload.items.head.h.n == 0 &&
                            TwoStrings(item.payload.items.tail.head, a, b)))
  }

  lemma StringsOfValue(item: Item, a: seq<Byte>, b: seq<Byte>)
    requires WellFormed(item)
    ensures ValueOf(item) == Array([ByteString(a), ByteString(b)]) <==> TwoStrings(item, a, b)
  {
    if item.ArrayItem? || item.OpenArrayItem? {
      TwoValues(item.items);
      if Length(item.items) == 2 {
        assert AllWellFormed(item.items);
        StringOfValue(item.items.head);
        StringOfValue(item.items.tail.head);
      }
    }
  }

  lemma StringOfValue(item: Item)
    requires WellFormed(item)
    ensures ValueOf(item).ByteString? <==> IsBytes(item)
    ensures IsBytes(item) ==> ValueOf(item) == ByteString(BytesOf(item))
  {
  }

  lemma TwoValues(items: Items)
    ensures Length(items) == 2 <==> items.Cons? && items.tail.Cons? && items.tail.tail.Nil?
    ensures Length(items) == 2 ==> ValuesOf(items) == [ValueOf(items.head), ValueOf(items.tail.head)]
    ensures Length(items) == 2 && AllWellFormed(items) ==> WellFormed(items.head) && WellFormed(items.tail.head)
  {
    if items.Cons? {
      assert AllWellFormed(items) ==> WellFormed(items.head) && AllWellFormed(items.tail);
      if items.tail.Cons? {
        assert AllWellFormed(items.tail) ==> WellFormed(items.tail.head);
        assert ValuesOf(items.tail) == [ValueOf(items.tail.head)] + ValuesOf(items.tail.tail);
        assert Length(items) == 2 + Length(items.tail.tail);
        assert items.tail.tail.Cons? ==> Length(items.tail.tail) >= 1;
      }
    }
  }

  lemma MixDatumOfValue(item: Item, a: seq<Byte>, b: seq<Byte>)
    requires WellFormed(item)
    ensures ValueOf(item) == Constr(0, Array([ByteString(a), ByteString(b)])) <==> EncodesMixDatum(item, a, b)
  {
    if item.TagItem? {
      StringsOfValue(item.payload, a, b);
      if item.payload.ArrayItem? || item.payload.OpenArrayItem? {
        var items := item.payload.items;
        TwoValues(items);
        if Length(items) == 2 {
          assert WellFormed(item.payload) && AllWellFormed(items);
          StringsOfValue(items.tail.head, a, b);
        }
      }
      hide TwoStrings;
    }
  }

  lemma MixDatumShape(v: Value, d: DecodedMixDatum)
    ensures MixDatumIn(v) == Some(d) <==>
            |d.a| == 48 && |d.b| == 48 && d.a != d.b && v == Constr(0, Array([ByteString(d.a), ByteString(d.b)]))
  {
    if MixDatumIn(v) == Some(d) {
      assert v.fields.items == [ByteString(d.a), ByteString(d.b)];
    }
  }

  /** A datum is decoded exactly when the bytes are a supported encoding of Constr 0 with two distinct
      48-byte strings: definite, open, chunked or wide, in the short tag or the general one. */
  lemma DecodedIff(bytes: seq<Byte>, d: DecodedMixDatum)
    ensures Decoded(bytes) == Some(d) <==>
            |d.a| == 48 && |d.b| == 48 && d.a != d.b &&
            exists item :: WellFormed(item) && Print(item) == bytes && EncodesMixDatum(item, d.a, d.b)
  {
    var v := Constr(0, Array([ByteString(d.a), ByteString(d.b)]));
    ReadsExactlyTheEncodings(bytes, v);
    MixDatumShape(v, d);
    if Decoded(bytes) == Some(d) {
      MixDatumShape(ReadValue(bytes).value, d);
      var item :| WellFormed(item) && ValueOf(item) == v && Print(item) == bytes;
      MixDatumOfValue(item, d.a, d.b);
    }
    if item :| WellFormed(item) && Print(item) == bytes && EncodesMixDatum(item, d.a, d.b) {
      MixDatumOfValue(item, d.a, d.b);
    }
  }

  /** The same from hex text: a datum is decoded exactly when the text stands for such an encoding. */
  lemma TextDecodedIff(cborHex: string, d: DecodedMixDatum)
    ensures DecodedText(cborHex) == Some(d) <==>
            |d.a| == 48 && |d.b| == 48 && d.a != d.b &&
            exists item :: WellFormed(item) && BytesOfHex(cborHex) == Some(Print(item)) && EncodesMixDatum(item, d.a, d.b)
  {
    var bytes := BytesOfHex(cborHex);
    if bytes.Some? {
      DecodedIff(bytes.value, d);
    }
    hide Decoded, WellFormed, Print, EncodesMixDatum, BytesOfHex;
  }

  /** The hex text of every encoding is decoded. */
  lemma EncodingIsDecoded(item: Item, d: DecodedMixDatum)
    requires WellFormed(item) && EncodesMixDatum(item, d.a, d.b) && |d.a| == 48 && |d.b| == 48 && d.a != d.b
    ensures DecodedText(HexOf(Print(item))) == Some(d)
  {
    HexRoundTrip(Print(item));
    DecodedIff(Print(item), d);
    hide Decoded, WellFormed, Print, EncodesMixDatum, BytesOfHex, HexOf;
  }
}
