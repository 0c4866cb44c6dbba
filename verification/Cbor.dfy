/** The datum reader's CBOR subset (backend/src/indexer/datum.ts:86-255; section 3 of RFC 8949): what
    it reads, as a function of the bytes left, and the encodings it accepts, as a grammar. */
module Cbor {
  import opened Arith
  import opened Bytes

  const MAX_SAFE_INTEGER: nat := 0x1F_FFFF_FFFF_FFFF

  const BREAK: Byte := 0xff

  datatype Value =
    | UInt(n: nat)
    | ByteString(b: seq<Byte>)
    | Array(items: seq<Value>)
    | Constr(tag: nat, fields: Value)

  /** A value and how many bytes it took, or an error. */
  datatype Parsed<+T> = Fail | Got(value: T, used: nat)

  // ---- what the reader does ----

  /** The number of bytes after an initial byte, by its five low bits. */
  function ArgumentBytes(additional: nat): (n: nat) {
    if additional == 24 then 1 else if additional == 25 then 2 else if additional == 26 then 4 else if additional == 27 then 8 else 0
  }

  /** readUnsignedHeaderValue (datum.ts:210-228). */
  function ReadHead(s: seq<Byte>, major: nat): (p: Parsed<nat>)
    ensures p.Got? ==> 1 <= p.used <= |s|
  {
    if s == [] || s[0] / 32 != major then Fail
    else
      var additional := s[0] % 32;
      if additional < 24 then Got(additional, 1)
      else if additional > 27 then Fail
      else
        var k := ArgumentBytes(additional);
        if 1 + k > |s| then Fail else Got(ToNat(s[1..1 + k]), 1 + k)
  }

  /** readByteString (datum.ts:167-202). */
  function ReadBytes(s: seq<Byte>): (p: Parsed<seq<Byte>>)
    ensures p.Got? ==> 1 <= p.used <= |s|
    decreases |s|, 0
  {
    if s == [] then Fail
    else if s[0] == 0x5f then
      var p := ReadChunks(s[1..]);
      if p.Fail? then Fail else Got(p.value, 1 + p.used)
    else
      var h := ReadHead(s, 2);
      if h.Fail? || h.value > MAX_SAFE_INTEGER || h.used + h.value > |s| then Fail
      else Got(s[h.used..h.used + h.value], h.used + h.value)
  }

  function ReadChunks(s: seq<Byte>): (p: Parsed<seq<Byte>>)
    ensures p.Got? ==> 1 <= p.used <= |s|
    decreases |s|, 1
  {
    if s == [] then Fail
    else if s[0] == BREAK then Got([], 1)
    else
      var c := ReadBytes(s);
      if c.Fail? then Fail else Before(c.value, c.used, ReadChunks(s[c.used..]))
  }

  function Before<T>(front: seq<T>, used: nat, p: Parsed<seq<T>>): Parsed<seq<T>> {
    if p.Fail? then Fail else Got(front + p.value, used + p.used)
  }

  /** readValue (datum.ts:94-110). */
  function ReadValue(s: seq<Byte>): (p: Parsed<Value>)
    ensures p.Got? ==> 1 <= p.used <= |s|
    decreases |s|, 1
  {
    if s == [] then Fail
    else
      var major := s[0] / 32;
      if major == 6 then ReadTagged(s)
      else if major == 4 then
        var p := ReadArray(s);
        if p.Fail? then Fail else Got(Array(p.value), p.used)
      else if major == 2 then
        var p := ReadBytes(s);
        if p.Fail? then Fail else Got(ByteString(p.value), p.used)
      else if major == 0 then
        var p := ReadHead(s, 0);
        if p.Fail? then Fail else Got(UInt(p.value), p.used)
      else Fail
  }

  /** The value a supported tag gives its payload (datum.ts:119-139). */
  function Tagged(tag: nat, inner: Value): (p: Parsed<Value>)
    ensures p.Got? ==> p.used == 0
  {
    if !inner.Array? then Fail
    else if 121 <= tag <= 127 then Got(Constr(tag - 121, inner), 0)
    else if 1280 <= tag <= 1400 then Got(Constr(tag - 1280 + 7, inner), 0)
    else if tag == 102 then
      if |inner.items| == 2 && inner.items[0].UInt? && inner.items[0].n <= MAX_SAFE_INTEGER
      then Got(Constr(inner.items[0].n, inner.items[1]), 0)
      else Fail
    else Fail
  }

  /** readTaggedValue (datum.ts:112-140). */
  function ReadTagged(s: seq<Byte>): (p: Parsed<Value>)
    ensures p.Got? ==> 1 <= p.used <= |s|
    decreases |s|, 0
  {
    var h := ReadHead(s, 6);
    if h.Fail? || h.value > MAX_SAFE_INTEGER then Fail
    else
      var inner := ReadValue(s[h.used..]);
      if inner.Fail? || Tagged(h.value, inner.value).Fail? then Fail
      else Got(Tagged(h.value, inner.value).value, h.used + inner.used)
  }

  /** readArrayValue (datum.ts:142-165). */
  function ReadArray(s: seq<Byte>): (p: Parsed<seq<Value>>)
    ensures p.Got? ==> 1 <= p.used <= |s|
    decreases |s|, 0
  {
    if s == [] then Fail
    else if s[0] == 0x9f then
      var p := ReadToBreak(s[1..]);
      if p.Fail? then Fail else Got(p.value, 1 + p.used)
    else
      var h := ReadHead(s, 4);
      if h.Fail? || h.value > MAX_SAFE_INTEGER then Fail
      else
        var p := ReadCount(s[h.used..], h.value);
        if p.Fail? then Fail else Got(p.value, h.used + p.used)
  }

  function ReadToBreak(s: seq<Byte>): (p: Parsed<seq<Value>>)
    ensures p.Got? ==> 1 <= p.used <= |s|
    decreases |s|, 2
  {
    if s == [] then Fail
    else if s[0] == BREAK then Got([], 1)
    else
      var v := ReadValue(s);
      if v.Fail? then Fail else Before([v.value], v.used, ReadToBreak(s[v.used..]))
  }

  function ReadCount(s: seq<Byte>, n: nat): (p: Parsed<seq<Value>>)
    ensures p.Got? ==> p.used <= |s|
    decreases |s|, 2
  {
    if n == 0 then Got([], 0)
    else
      var v := ReadValue(s);
      if v.Fail? then Fail else Before([v.value], v.used, ReadCount(s[v.used..], n - 1))
  }

  // ---- the encodings ----

  /** The argument of an initial byte: `extra` following bytes hold it (0, 1, 2, 4 or 8), whether or
      not fewer would do. */
  datatype Head = Head(extra: nat, n: nat)

  predicate Fits(h: Head) {
    (h.extra == 0 && h.n < 24) || ((h.extra == 1 || h.extra == 2 || h.extra == 4 || h.extra == 8) && h.n < Pow(256, h.extra))
  }

  function Additional(h: Head): (r: nat)
    requires Fits(h)
    ensures r <= 27
  {
    if h.extra == 0 then h.n else if h.extra == 1 then 24 else if h.extra == 2 then 25 else if h.extra == 4 then 26 else 27
  }

  function PrintHead(major: nat, h: Head): (b: seq<Byte>)
    requires Fits(h) && major < 8
    ensures |b| == 1 + h.extra
    ensures b[0] / 32 == major && b[0] % 32 == Additional(h)
  {
    [major * 32 + Additional(h)] + FromNat(h.n, h.extra)
  }

  datatype Item =
    | UIntItem(h: Head)
    | BytesItem(h: Head, b: seq<Byte>)
    | ChunkedItem(chunks: Items)
    | ArrayItem(h: Head, items: Items)
    | OpenArrayItem(items: Items)
    | TagItem(h: Head, payload: Item)

  datatype Items = Nil | Cons(head: Item, tail: Items)

  function Length(items: Items): nat {
    match items
    case Nil => 0
    case Cons(_, tail) => 1 + Length(tail)
  }

  /** An encoding the reader supports: lengths say how much follows, every chunk is a byte string
      (itself chunked, perhaps), every tag is a supported one over an array. */
  predicate WellFormed(item: Item) {
    match item
    case UIntItem(h) => Fits(h)
    case BytesItem(h, b) => Fits(h) && h.n == |b| && h.n <= MAX_SAFE_INTEGER
    case ChunkedItem(chunks) => AllWellFormed(chunks) && AllBytes(chunks)
    case ArrayItem(h, items) => Fits(h) && h.n == Length(items) && h.n <= MAX_SAFE_INTEGER && AllWellFormed(items)
    case OpenArrayItem(items) => AllWellFormed(items)
    case TagItem(h, payload) => Fits(h) && h.n <= MAX_SAFE_INTEGER && WellFormed(payload) && Tagged(h.n, ValueOf(payload)).Got?
  }

  predicate AllWellFormed(items: Items) {
    match items
    case Nil => true
    case Cons(head, tail) => WellFormed(head) && AllWellFormed(tail)
  }

  predicate IsBytes(item: Item) { item.BytesItem? || item.ChunkedItem? }

  predicate AllBytes(items: Items) {
    match items
    case Nil => true
    case Cons(head, tail) => IsBytes(head) && AllBytes(tail)
  }

  /** The byte string an item stands for. */
  function BytesOf(item: Item): seq<Byte> {
    match item
    case BytesItem(_, b) => b
    case ChunkedItem(chunks) => JoinOf(chunks)
    case _ => []
  }

  function JoinOf(chunks: Items): seq<Byte> {
    match chunks
    case Nil => []
    case Cons(head, tail) => BytesOf(head) + JoinOf(tail)
  }

  function ValueOf(item: Item): Value {
    match item
    case UIntItem(h) => UInt(h.n)
    case BytesItem(_, b) => ByteString(b)
    case ChunkedItem(chunks) => ByteString(JoinOf(chunks))
    case ArrayItem(_, items) => Array(ValuesOf(items))
    case OpenArrayItem(items) => Array(ValuesOf(items))
    case TagItem(h, payload) =>
      var p := Tagged(h.n, ValueOf(payload));
      if p.Got? then p.value else UInt(0)
  }

  function ValuesOf(items: Items): (vs: seq<Value>)
    ensures |vs| == Length(items)
  {
    match items
    case Nil => []
    case Cons(head, tail) => [ValueOf(head)] + ValuesOf(tail)
  }

  function Print(item: Item): (b: seq<Byte>)
    requires WellFormed(item)
    ensures b != [] && b[0] != BREAK
  {
    match item
    case UIntItem(h) => PrintHead(0, h)
    case BytesItem(h, b) => PrintHead(2, h) + b
    case ChunkedItem(chunks) => [0x5f] + PrintAll(chunks) + [BREAK]
    case ArrayItem(h, items) => PrintHead(4, h) + PrintAll(items)
    case OpenArrayItem(items) => [0x9f] + PrintAll(items) + [BREAK]
    case TagItem(h, payload) => PrintHead(6, h) + Print(payload)
  }

  function PrintAll(items: Items): seq<Byte>
    requires AllWellFormed(items)
  {
    match items
    case Nil => []
    case Cons(head, tail) => Print(head) + PrintAll(tail)
  }

  // ---- printing, then reading ----

  lemma HeadRoundTrip(major: nat, h: Head, suffix: seq<Byte>)
    requires Fits(h) && major < 8
    ensures ReadHead(PrintHead(major, h) + suffix, major) == Got(h.n, 1 + h.extra)
  {
    hide Pow, FromNat, ToNat;
    var head, argument := PrintHead(major, h), FromNat(h.n, h.extra);
    var s := head + suffix;
    assert s[0] == head[0];
    if h.extra != 0 {
      assert head == [head[0]] + argument;
      assert s[1..1 + h.extra] == argument;
      FromNatRoundTrip(h.n, h.extra);
      AdditionalBytes(h);
      hide PrintHead, Additional, ArgumentBytes, Fits;
    }
  }

  lemma AdditionalBytes(h: Head)
    requires Fits(h) && h.extra != 0
    ensures 24 <= Additional(h) <= 27 && ArgumentBytes(Additional(h)) == h.extra
  {
    hide Pow;
  }

  lemma After(head: seq<Byte>, tail: seq<Byte>)
    ensures (head + tail)[|head|..] == tail && (head + tail)[..|head|] == head
  {
  }

  lemma Regroup(a: seq<Byte>, b: seq<Byte>, c: seq<Byte>)
    ensures a + b + c == a + (b + c)
  {
  }

  lemma {:induction false} BytesRoundTrip(item: Item, suffix: seq<Byte>)
    requires WellFormed(item) && IsBytes(item)
    ensures ReadBytes(Print(item) + suffix) == Got(BytesOf(item), |Print(item)|)
    decreases item
  {
    var s := Print(item) + suffix;
    match item {
      case BytesItem(h, b) =>
        hide WellFormed, PrintHead, PrintAll, ReadHead, ReadChunks, Pow, FromNat;
        Regroup(PrintHead(2, h), b, suffix);
        HeadRoundTrip(2, h, b + suffix);
        After(PrintHead(2, h), b + suffix);
        assert s[0] == PrintHead(2, h)[0] && s[0] % 32 == Additional(h);
        assert s[0] != 0x5f;
        assert s[1 + h.extra..1 + h.extra + |b|] == b;
      case ChunkedItem(chunks) =>
        assert Print(item) == [0x5f] + (PrintAll(chunks) + [BREAK]);
        Regroup([0x5f], PrintAll(chunks) + [BREAK], suffix);
        After([0x5f], PrintAll(chunks) + [BREAK] + suffix);
        ChunksRoundTrip(chunks, suffix);
      case _ =>
    }
  }

  lemma {:induction false} ChunksRoundTrip(chunks: Items, suffix: seq<Byte>)
    requires AllWellFormed(chunks) && AllBytes(chunks)
    ensures ReadChunks(PrintAll(chunks) + [BREAK] + suffix) == Got(JoinOf(chunks), |PrintAll(chunks)| + 1)
    decreases chunks
  {
    match chunks {
      case Nil =>
        assert PrintAll(chunks) + [BREAK] + suffix == [BREAK] + suffix;
      case Cons(head, tail) =>
        var rest := PrintAll(tail) + [BREAK] + suffix;
        assert PrintAll(chunks) + [BREAK] + suffix == Print(head) + rest;
        assert (Print(head) + rest)[0] == Print(head)[0];
        BytesRoundTrip(head, rest);
        After(Print(head), rest);
        ChunksRoundTrip(tail, suffix);
    }
  }

  /** Reading undoes printing: for every supported encoding, in any header width, definite, open or
      chunked, the reader returns its value and takes exactly its bytes, whatever follows. */
  lemma {:induction false} ReadAfterPrint(item: Item, suffix: seq<Byte>)
    requires WellFormed(item)
    ensures ReadValue(Print(item) + suffix) == Got(ValueOf(item), |Print(item)|)
    decreases item
  {
    var s := Print(item) + suffix;
    assert s[0] == Print(item)[0];
    hide Fits;
    match item {
      case UIntItem(h) =>
        HeadRoundTrip(0, h, suffix);
      case BytesItem(h, b) =>
        BytesRoundTrip(item, suffix);
      case ChunkedItem(chunks) =>
        BytesRoundTrip(item, suffix);
      case ArrayItem(h, items) =>
        CountedArrayRoundTrip(h, items, suffix);
      case OpenArrayItem(items) =>
        OpenArrayRoundTrip(items, suffix);
      case TagItem(h, payload) =>
        ReadAfterPrint(payload, suffix);
        TagRoundTrip(h, payload, suffix);
    }
  }

  lemma TagRoundTrip(h: Head, payload: Item, suffix: seq<Byte>)
    requires WellFormed(TagItem(h, payload))
    requires ReadValue(Print(payload) + suffix) == Got(ValueOf(payload), |Print(payload)|)
    ensures ReadTagged(Print(TagItem(h, payload)) + suffix) == Got(ValueOf(TagItem(h, payload)), |Print(TagItem(h, payload))|)
  {
    hide PrintHead, ReadHead, Tagged, Fits, ReadValue;
    Regroup(PrintHead(6, h), Print(payload), suffix);
    HeadRoundTrip(6, h, Print(payload) + suffix);
    After(PrintHead(6, h), Print(payload) + suffix);
  }

  lemma {:induction false} CountedArrayRoundTrip(h: Head, items: Items, suffix: seq<Byte>)
    requires WellFormed(ArrayItem(h, items))
    ensures ReadArray(Print(ArrayItem(h, items)) + suffix) == Got(ValuesOf(items), |Print(ArrayItem(h, items))|)
    decreases items, 1
  {
    var s := Print(ArrayItem(h, items)) + suffix;
    Regroup(PrintHead(4, h), PrintAll(items), suffix);
    HeadRoundTrip(4, h, PrintAll(items) + suffix);
    After(PrintHead(4, h), PrintAll(items) + suffix);
    assert s[0] == PrintHead(4, h)[0] && s[0] % 32 == Additional(h);
    assert s[0] != 0x9f;
    CountRoundTrip(items, suffix);
  }

  lemma {:induction false} OpenArrayRoundTrip(items: Items, suffix: seq<Byte>)
    requires AllWellFormed(items)
    ensures ReadArray(Print(OpenArrayItem(items)) + suffix) == Got(ValuesOf(items), |Print(OpenArrayItem(items))|)
    decreases items, 1
  {
    assert Print(OpenArrayItem(items)) == [0x9f] + (PrintAll(items) + [BREAK]);
    Regroup([0x9f], PrintAll(items) + [BREAK], suffix);
    After([0x9f], PrintAll(items) + [BREAK] + suffix);
    ToBreakRoundTrip(items, suffix);
  }

  lemma {:induction false} ToBreakRoundTrip(items: Items, suffix: seq<Byte>)
    requires AllWellFormed(items)
    ensures ReadToBreak(PrintAll(items) + [BREAK] + suffix) == Got(ValuesOf(items), |PrintAll(items)| + 1)
    decreases items, 0
  {
    match items {
      case Nil =>
        assert PrintAll(items) + [BREAK] + suffix == [BREAK] + suffix;
      case Cons(head, tail) =>
        var rest := PrintAll(tail) + [BREAK] + suffix;
        assert PrintAll(items) + [BREAK] + suffix == Print(head) + rest;
        assert (Print(head) + rest)[0] == Print(head)[0];
        ReadAfterPrint(head, rest);
        After(Print(head), rest);
        ToBreakRoundTrip(tail, suffix);
    }
  }

  lemma {:induction false} CountRoundTrip(items: Items, suffix: seq<Byte>)
    requires AllWellFormed(items)
    ensures ReadCount(PrintAll(items) + suffix, Length(items)) == Got(ValuesOf(items), |PrintAll(items)|)
    decreases items, 0
  {
    match items {
      case Nil =>
      case Cons(head, tail) =>
        hide ReadValue, WellFormed, Print, ValueOf;
        var rest := PrintAll(tail) + suffix;
        assert PrintAll(items) + suffix == Print(head) + rest;
        ReadAfterPrint(head, rest);
        After(Print(head), rest);
        CountRoundTrip(tail, suffix);
    }
  }

  // ---- reading, then printing ----

  lemma NoDigits(n: nat)
    ensures FromNat(n, 0) == []
  {
  }

  /** The argument read is one the head prints. */
  lemma HeadWasPrinted(s: seq<Byte>, major: nat) returns (h: Head)
    requires major < 8 && ReadHead(s, major).Got?
    ensures Fits(h) && h.n == ReadHead(s, major).value && 1 + h.extra == ReadHead(s, major).used
    ensures PrintHead(major, h) == s[..1 + h.extra]
  {
    hide ToNat, FromNat, Pow;
    var k := ArgumentBytes(s[0] % 32);
    h := Head(k, ReadHead(s, major).value);
    if k != 0 {
      ToNatBound(s[1..1 + k]);
      ToNatRoundTrip(s[1..1 + k]);
    } else {
      NoDigits(h.n);
    }
    assert s[..1 + k] == [s[0]] + s[1..1 + k];
  }

  lemma {:induction false} BytesWerePrinted(s: seq<Byte>) returns (item: Item)
    requires ReadBytes(s).Got?
    ensures WellFormed(item) && IsBytes(item) && BytesOf(item) == ReadBytes(s).value && Print(item) == s[..ReadBytes(s).used]
    decreases |s|, 0
  {
    hide ReadChunks, PrintAll, AllWellFormed, AllBytes, ReadHead, PrintHead;
    if s[0] == 0x5f {
      var chunks := ChunksWerePrinted(s[1..]);
      item := ChunkedItem(chunks);
      var n := ReadChunks(s[1..]).used;
      assert s[..1 + n] == [0x5f] + s[1..][..n];
      assert Print(item) == [0x5f] + (PrintAll(chunks) + [BREAK]);
    } else {
      var h := HeadWasPrinted(s, 2);
      var from := 1 + h.extra;
      item := BytesItem(h, s[from..from + h.n]);
      assert s[..from + h.n] == s[..from] + s[from..from + h.n];
    }
  }

  lemma {:induction false} ChunksWerePrinted(s: seq<Byte>) returns (chunks: Items)
    requires ReadChunks(s).Got?
    ensures AllWellFormed(chunks) && AllBytes(chunks) && JoinOf(chunks) == ReadChunks(s).value
    ensures PrintAll(chunks) + [BREAK] == s[..ReadChunks(s).used]
    decreases |s|, 1
  {
    if s[0] == BREAK {
      chunks := Nil;
      assert s[..1] == [BREAK];
    } else {
      var head := BytesWerePrinted(s);
      var n := ReadBytes(s).used;
      var tail := ChunksWerePrinted(s[n..]);
      chunks := Cons(head, tail);
      SplitRead(s, n, ReadChunks(s[n..]).used);
      Regroup(Print(head), PrintAll(tail), [BREAK]);
    }
  }

  lemma SplitRead(s: seq<Byte>, n: nat, m: nat)
    requires n + m <= |s|
    ensures s[..n + m] == s[..n] + s[n..][..m]
  {
  }

  /** Whatever the reader accepts is a supported encoding of the value it returns. */
  lemma {:induction false} ReadIsPrint(s: seq<Byte>) returns (item: Item)
    requires ReadValue(s).Got?
    ensures WellFormed(item) && ValueOf(item) == ReadValue(s).value && Print(item) == s[..ReadValue(s).used]
    decreases |s|, 1
  {
    var major := s[0] / 32;
    if major == 6 {
      item := TagWasPrinted(s);
    } else if major == 4 {
      item := ArrayWasPrinted(s);
    } else if major == 2 {
      item := BytesWerePrinted(s);
    } else {
      var h := HeadWasPrinted(s, 0);
      item := UIntItem(h);
    }
  }

  lemma {:induction false} TagWasPrinted(s: seq<Byte>) returns (item: Item)
    requires ReadTagged(s).Got?
    ensures WellFormed(item) && ValueOf(item) == ReadTagged(s).value && Print(item) == s[..ReadTagged(s).used]
    decreases |s|, 0
  {
    var h := HeadWasPrinted(s, 6);
    var n := 1 + h.extra;
    var payload := ReadIsPrint(s[n..]);
    hide ReadHead, Tagged, ReadValue;
    item := TagItem(h, payload);
    SplitRead(s, n, ReadValue(s[n..]).used);
  }

  lemma {:induction false} ArrayWasPrinted(s: seq<Byte>) returns (item: Item)
    requires ReadArray(s).Got?
    ensures WellFormed(item) && ValueOf(item) == Array(ReadArray(s).value) && Print(item) == s[..ReadArray(s).used]
    decreases |s|, 0
  {
    hide ReadToBreak, ReadCount, PrintAll, AllWellFormed, ValuesOf, ReadHead, PrintHead;
    if s[0] == 0x9f {
      var items := ToBreakWasPrinted(s[1..]);
      item := OpenArrayItem(items);
      var n := ReadToBreak(s[1..]).used;
      assert s[..1 + n] == [0x9f] + s[1..][..n];
      assert Print(item) == [0x9f] + (PrintAll(items) + [BREAK]);
    } else {
      var h := HeadWasPrinted(s, 4);
      var n := 1 + h.extra;
      var items := CountWasPrinted(s[n..], h.n);
      item := ArrayItem(h, items);
      SplitRead(s, n, ReadCount(s[n..], h.n).used);
    }
  }

  lemma {:induction false} ToBreakWasPrinted(s: seq<Byte>) returns (items: Items)
    requires ReadToBreak(s).Got?
    ensures AllWellFormed(items) && ValuesOf(items) == ReadToBreak(s).value
    ensures PrintAll(items) + [BREAK] == s[..ReadToBreak(s).used]
    decreases |s|, 2
  {
    if s[0] == BREAK {
      items := Nil;
      assert s[..1] == [BREAK];
    } else {
      var head := ReadIsPrint(s);
      var n := ReadValue(s).used;
      var tail := ToBreakWasPrinted(s[n..]);
      items := Cons(head, tail);
      SplitRead(s, n, ReadToBreak(s[n..]).used);
      Regroup(Print(head), PrintAll(tail), [BREAK]);
    }
  }

  lemma CountSplit(s: seq<Byte>, count: nat)
    requires count > 0 && ReadCount(s, count).Got?
    ensures ReadValue(s).Got? && ReadCount(s[ReadValue(s).used..], count - 1).Got?
    ensures ReadCount(s, count) ==
            Before([ReadValue(s).value], ReadValue(s).used, ReadCount(s[ReadValue(s).used..], count - 1))
  {
    hide ReadValue;
  }

  lemma ConsCounted(s: seq<Byte>, count: nat, head: Item, tail: Items)
    requires count > 0 && ReadCount(s, count).Got? && ReadValue(s).Got? && ReadCount(s[ReadValue(s).used..], count - 1).Got?
    requires ReadCount(s, count) ==
             Before([ReadValue(s).value], ReadValue(s).used, ReadCount(s[ReadValue(s).used..], count - 1))
    requires WellFormed(head) && ValueOf(head) == ReadValue(s).value && Print(head) == s[..ReadValue(s).used]
    requires AllWellFormed(tail) && Length(tail) == count - 1
    requires ValuesOf(tail) == ReadCount(s[ReadValue(s).used..], count - 1).value
    requires PrintAll(tail) == s[ReadValue(s).used..][..ReadCount(s[ReadValue(s).used..], count - 1).used]
    ensures AllWellFormed(Cons(head, tail)) && Length(Cons(head, tail)) == count
    ensures ValuesOf(Cons(head, tail)) == ReadCount(s, count).value
    ensures PrintAll(Cons(head, tail)) == s[..ReadCount(s, count).used]
  {
    hide ReadValue, ReadCount, WellFormed, ValueOf, Print;
    SplitRead(s, ReadValue(s).used, ReadCount(s[ReadValue(s).used..], count - 1).used);
  }

  lemma {:induction false} CountWasPrinted(s: seq<Byte>, count: nat) returns (items: Items)
    requires ReadCount(s, count).Got?
    ensures AllWellFormed(items) && Length(items) == count && ValuesOf(items) == ReadCount(s, count).value
    ensures PrintAll(items) == s[..ReadCount(s, count).used]
    decreases |s|, 2
  {
    hide ReadValue, ReadHead, Print, ValueOf, WellFormed;
    if count == 0 {
      items := Nil;
      return;
    }
    hide *;
    CountSplit(s, count);
    var head := ReadIsPrint(s);
    var tail := CountWasPrinted(s[ReadValue(s).used..], count - 1);
    ConsCounted(s, count, head, tail);
    items := Cons(head, tail);
  }

  /** The reader takes a whole input with this value exactly when the input is a supported encoding of
      the value. */
  lemma ReadsExactlyTheEncodings(s: seq<Byte>, v: Value)
    ensures ReadValue(s) == Got(v, |s|) <==> exists item :: WellFormed(item) && ValueOf(item) == v && Print(item) == s
  {
    if ReadValue(s) == Got(v, |s|) {
      var item := ReadIsPrint(s);
      assert Print(item) == s[..|s|] == s;
    }
    if item :| WellFormed(item) && ValueOf(item) == v && Print(item) == s {
      ReadAfterPrint(item, []);
      assert Print(item) + [] == s;
    }
  }
}
