/** The hand-written CBOR encoders: box values in TypeScript (offchain/src/tx/box-value.ts) and Rust
    (crypto/ref/src/value.rs), and output references (offchain/scripts/gen-encoding-parity.ts). */
module Encoders {
  import opened Arith
  import opened Bytes
  import opened Cbor
  import opened Options

  const MAX_TOKEN_QUANTITY: nat := 0xFFFF_FFFF_FFFF_FFFF

  // ---- integers ----

  /** The head with the fewest following bytes (section 4.2.1 of RFC 8949). */
  function Shortest(n: nat): (h: Head)
    requires n <= MAX_TOKEN_QUANTITY
    ensures Fits(h) && h.n == n
  {
    PowersOf256();
    if n < 24 then Head(0, n)
    else if n < 0x100 then Head(1, n)
    else if n < 0x1_0000 then Head(2, n)
    else if n < 0x1_0000_0000 then Head(4, n)
    else Head(8, n)
  }

  /** No head for the same number is shorter. */
  lemma ShortestIsShortest(n: nat, h: Head, major: nat)
    requires n <= MAX_TOKEN_QUANTITY && major < 8 && Fits(h) && h.n == n
    ensures |PrintHead(major, Shortest(n))| <= |PrintHead(major, h)|
  {
    PowersOf256();
  }

  lemma NoBytes(n: nat)
    ensures FromNat(n, 0) == []
  {
  }

  lemma OneByte(n: nat)
    ensures FromNat(n, 1) == [n % 256]
  {
    NoBytes(n / 256);
  }

  lemma TwoBytes(n: nat)
    ensures FromNat(n, 2) == [n / 256 % 256, n % 256]
  {
    OneByte(n / 256);
  }

  lemma ThreeBytes(n: nat)
    ensures FromNat(n, 3) == [n / 256 / 256 % 256, n / 256 % 256, n % 256]
  {
    TwoBytes(n / 256);
  }

  lemma FourBytes(n: nat)
    ensures FromNat(n, 4) == [n / 0x100_0000 % 256, n / 0x1_0000 % 256, n / 256 % 256, n % 256]
  {
    ThreeBytes(n / 256);
    hide FromNat;
    assert n / 256 / 256 == n / 0x1_0000;
    assert n / 0x1_0000 / 256 == n / 0x100_0000;
  }

  function Shifted(x: nat, k: nat): nat { if k == 0 then x else Shifted(x / 256, k - 1) }

  /** Byte i of eight is the low byte after 7 - i shifts. */
  lemma {:induction false} ByteAt(x: nat, n: nat, i: nat)
    requires i < n
    ensures FromNat(x, n)[i] == Shifted(x, n - 1 - i) % 256
  {
    if i < n - 1 {
      ByteAt(x / 256, n - 1, i);
    }
  }

  lemma {:induction false} ShiftedNext(x: nat, k: nat)
    ensures Shifted(x, k) / 256 == Shifted(x, k + 1)
  {
    if k > 0 {
      ShiftedNext(x / 256, k - 1);
    }
  }

  /** The 64-bit loop (box-value.ts:197-205, gen-encoding-parity.ts:125-131): the eight low bytes,
      from the last. */
  method EightBytes(n: nat) returns (r: seq<Byte>)
    ensures r == [0x1b] + FromNat(n, 8)
  {
    var out := new Byte[9](_ => 0);
    out[0] := 0x1b;
    var x := n;
    var i := 8;
    while i >= 1
      invariant 0 <= i <= 8 && out[0] == 0x1b && x == Shifted(n, 8 - i)
      invariant forall k :: i < k <= 8 ==> out[k] == FromNat(n, 8)[k - 1]
    {
      ByteAt(n, 8, i - 1);
      ShiftedNext(n, 8 - i);
      out[i] := x % 256;
      x := x / 256;
      i := i - 1;
    }
    assert out[..] == [0x1b] + FromNat(n, 8);
    r := out[..];
  }

  datatype EncodeError = Negative | TooLarge | TooLong | BadValue

  /** The shortest head, byte by byte. */
  lemma HeadBytes(major: nat, n: nat)
    requires n <= MAX_TOKEN_QUANTITY && major < 8
    ensures n < 24 ==> PrintHead(major, Shortest(n)) == [major * 32 + n]
    ensures 24 <= n < 0x100 ==> PrintHead(major, Shortest(n)) == [major * 32 + 24, n]
    ensures 0x100 <= n < 0x1_0000 ==> PrintHead(major, Shortest(n)) == [major * 32 + 25, n / 256 % 256, n % 256]
    ensures 0x1_0000 <= n < 0x1_0000_0000 ==>
              PrintHead(major, Shortest(n)) ==
              [major * 32 + 26, n / 0x100_0000 % 256, n / 0x1_0000 % 256, n / 256 % 256, n % 256]
    ensures 0x1_0000_0000 <= n ==> PrintHead(major, Shortest(n)) == [major * 32 + 27] + FromNat(n, 8)
  {
    NoBytes(n);
    OneByte(n);
    TwoBytes(n);
    FourBytes(n);
    hide FromNat, Fits;
    var h := Shortest(n);
    assert PrintHead(major, h) == [major * 32 + Additional(h)] + FromNat(n, h.extra);
    hide PrintHead;
    assert n < 0x100 ==> n % 256 == n;
  }

  /** encodeCborUInt (box-value.ts:185-208). */
  method EncodeCborUInt(n: int) returns (r: Result<seq<Byte>, EncodeError>)
    ensures r == Err(Negative) <==> n < 0
    ensures r == Err(TooLarge) <==> n > MAX_TOKEN_QUANTITY
    ensures 0 <= n <= MAX_TOKEN_QUANTITY ==> r == Ok(PrintHead(0, Shortest(n)))
  {
    if n < 0 {
      return Err(Negative);
    }
    if n <= MAX_TOKEN_QUANTITY {
      HeadBytes(0, n);
    }
    hide *;
    if n < 24 {
      return Ok([n]);
    }
    if n < 0x100 {
      return Ok([0x18, n]);
    }
    if n < 0x1_0000 {
      return Ok([0x19, n / 256 % 256, n % 256]);
    }
    if n < 0x1_0000_0000 {
      return Ok([0x1a, n / 0x100_0000 % 256, n / 0x1_0000 % 256, n / 256 % 256, n % 256]);
    }
    if n <= MAX_TOKEN_QUANTITY {
      var out := EightBytes(n);
      return Ok(out);
    }
    r := Err(TooLarge);
  }

  /** Every integer up to 2^64 - 1 is read back unchanged. */
  lemma UIntReadsBack(n: nat, suffix: seq<Byte>)
    requires n <= MAX_TOKEN_QUANTITY
    ensures ReadValue(PrintHead(0, Shortest(n)) + suffix) == Got(UInt(n), |PrintHead(0, Shortest(n))|)
  {
    ReadAfterPrint(UIntItem(Shortest(n)), suffix);
  }

  /** cborMinorInt (gen-encoding-parity.ts:111-132): no upper bound, the loop keeps 64 bits. */
  method CborMinorInt(value: int) returns (r: Result<seq<Byte>, EncodeError>)
    ensures r == Err(Negative) <==> value < 0
    ensures value >= 0 ==> r == Ok(MinorInt(value))
  {
    if value < 0 {
      return Err(Negative);
    }
    MinorIntBytes(value);
    hide *;
    if value < 24 {
      return Ok([value]);
    }
    if value < 0x100 {
      return Ok([0x18, value]);
    }
    if value < 0x1_0000 {
      return Ok([0x19, value / 256 % 256, value % 256]);
    }
    if value < 0x1_0000_0000 {
      return Ok([0x1a, value / 0x100_0000 % 256, value / 0x1_0000 % 256, value / 256 % 256, value % 256]);
    }
    var out := EightBytes(value);
    r := Ok(out);
  }

  /** The shortest head below 2^32, the low 64 bits in eight bytes above. */
  function MinorHead(value: nat): (h: Head)
    ensures Fits(h)
    ensures h.n == value <==> value <= MAX_TOKEN_QUANTITY
  {
    if value < 0x1_0000_0000 then Shortest(value)
    else
      PowersOf256();
      Head(8, value % 0x1_0000_0000_0000_0000)
  }

  function MinorInt(value: nat): (b: seq<Byte>)
    ensures b != []
  {
    PrintHead(0, MinorHead(value))
  }

  lemma PowPositive(n: nat)
    ensures Pow(256, n) > 0
  {
  }

  lemma MinorIntBytes(value: nat)
    ensures value < 24 ==> MinorInt(value) == [value]
    ensures 24 <= value < 0x100 ==> MinorInt(value) == [0x18, value]
    ensures 0x100 <= value < 0x1_0000 ==> MinorInt(value) == [0x19, value / 256 % 256, value % 256]
    ensures 0x1_0000 <= value < 0x1_0000_0000 ==>
              MinorInt(value) == [0x1a, value / 0x100_0000 % 256, value / 0x1_0000 % 256, value / 256 % 256, value % 256]
    ensures 0x1_0000_0000 <= value ==> MinorInt(value) == [0x1b] + FromNat(value, 8)
  {
    hide FromNat, PrintHead, Shortest, Fits, Pow;
    assert MinorInt(value) == PrintHead(0, MinorHead(value));
    if value < 0x1_0000_0000 {
      HeadBytes(0, value);
    } else {
      LowBits(value);
      WideHead(value % 0x1_0000_0000_0000_0000);
    }
  }

  lemma WideHead(n: nat)
    requires n <= MAX_TOKEN_QUANTITY
    ensures Fits(Head(8, n)) && PrintHead(0, Head(8, n)) == [0x1b] + FromNat(n, 8)
  {
    PowersOf256();
    hide FromNat;
  }

  lemma {:induction false} SameLowBytes(x: nat, n: nat, m: nat)
    requires m == Pow(256, n) && m > 0
    ensures FromNat(x, n) == FromNat(x % m, n)
  {
    if n > 0 {
      var p := Pow(256, n - 1);
      PowPositive(n - 1);
      LowDigits(x, p);
      SameLowBytes(x / 256, n - 1, p);
      hide Pow;
      assert FromNat(x, n) == FromNat(x / 256, n - 1) + [x % 256];
      assert FromNat(x % m, n) == FromNat(x % m / 256, n - 1) + [x % m % 256];
    }
  }

  lemma LowDigits(x: nat, p: nat)
    requires p > 0
    ensures x % (256 * p) % 256 == x % 256
    ensures x % (256 * p) / 256 == x / 256 % p
  {
    var q, y := x / 256 / p, x / 256 % p;
    assert x / 256 == q * p + y;
    assert x == 256 * (q * p + y) + x % 256;
    assert 256 * (q * p) == q * (256 * p);
    var low := 256 * y + x % 256;
    assert low < 256 * p;
    Remainder(x, 256 * p, q, low);
  }

  lemma Remainder(x: nat, m: nat, q: nat, low: nat)
    requires m > 0 && low < m && x == q * m + low
    ensures x % m == low
  {
    var k := x / m - q;
    assert k * m == (x / m) * m - q * m;
    MultipleGrows(k, m);
  }

  lemma LowBits(value: nat)
    ensures FromNat(value, 8) == FromNat(value % 0x1_0000_0000_0000_0000, 8)
  {
    PowersOf256();
    SameLowBytes(value, 8, 0x1_0000_0000_0000_0000);
  }

  /** The generator's integers are read back exactly when they fit 64 bits. */
  lemma MinorIntReadsBackIff(value: nat)
    ensures ReadValue(MinorInt(value)) == Got(UInt(value), |MinorInt(value)|) <==> value <= MAX_TOKEN_QUANTITY
  {
    ReadAfterPrint(UIntItem(MinorHead(value)), []);
    assert MinorInt(value) + [] == MinorInt(value);
  }

  // ---- byte strings and output references ----

  /** A byte string under its shortest head. */
  function StringBytes(b: seq<Byte>): (r: seq<Byte>)
    requires |b| <= MAX_TOKEN_QUANTITY
  {
    PrintHead(2, Shortest(|b|)) + b
  }

  /** What the generator prints: the widest head has four bytes, which hold the length modulo 2^32. */
  function MinorString(b: seq<Byte>): (r: seq<Byte>)
    ensures |b| < 0x1_0000_0000 ==> r == StringBytes(b)
  {
    if |b| < 0x1_0000_0000 then StringBytes(b) else [0x5a] + FromNat(|b|, 4) + b
  }

  /** cborBytes (gen-encoding-parity.ts:134-152); the unsigned shifts work on the low 32 bits of the length. */
  method CborBytes(bytes: seq<Byte>) returns (r: seq<Byte>)
    ensures r == MinorString(bytes)
  {
    var len := |bytes|;
    if len < 0x1_0000_0000 {
      HeadBytes(2, len);
    }
    FourBytes(len);
    var low := len % 0x1_0000_0000;
    LowWord(len);
    hide PrintHead, Shortest, FromNat;
    var header: seq<Byte>;
    if len < 24 {
      header := [0x40 + len];
    } else if len < 0x100 {
      header := [0x58, len];
    } else if len < 0x1_0000 {
      header := [0x59, len / 256 % 256, len % 256];
    } else {
      header := [0x5a, low / 0x100_0000 % 256, low / 0x1_0000 % 256, low / 256 % 256, low % 256];
      assert header == [0x5a] + FromNat(len, 4);
    }
    r := header + bytes;
  }

  lemma LowWord(len: nat)
    ensures FromNat(len, 4) == FromNat(len % 0x1_0000_0000, 4)
    ensures var low := len % 0x1_0000_0000;
            FromNat(len, 4) == [low / 0x100_0000 % 256, low / 0x1_0000 % 256, low / 256 % 256, low % 256]
  {
    PowersOf256();
    SameLowBytes(len, 4, 0x1_0000_0000);
    FourBytes(len % 0x1_0000_0000);
  }

  /** A string is read back exactly when its length fits 32 bits. */
  lemma StringReadsBackIff(b: seq<Byte>)
    ensures ReadValue(MinorString(b)) == Got(ByteString(b), |MinorString(b)|) <==> |b| < 0x1_0000_0000
  {
    if |b| < 0x1_0000_0000 {
      ReadAfterPrint(BytesItem(Shortest(|b|), b), []);
      assert MinorString(b) + [] == MinorString(b);
    } else {
      var low := |b| % 0x1_0000_0000;
      PowersOf256();
      LowWord(|b|);
      hide FromNat;
      var h := Head(4, low);
      assert PrintHead(2, h) == [0x5a] + FromNat(low, 4);
      assert MinorString(b) == Print(BytesItem(h, b[..low])) + b[low..];
      ReadAfterPrint(BytesItem(h, b[..low]), b[low..]);
    }
  }

  datatype OutputReference = OutputReference(txId: seq<Byte>, outputIndex: int)

  predicate ValidRef(r: OutputReference) { |r.txId| == 32 && r.outputIndex >= 0 }

  /** The error of a reference that is not valid. */
  function RefError(r: OutputReference): EncodeError { if |r.txId| != 32 then BadValue else Negative }

  lemma TwoItems(x: Item, y: Item)
    requires WellFormed(x) && WellFormed(y)
    ensures AllWellFormed(Cons(x, Cons(y, Nil))) && ValuesOf(Cons(x, Cons(y, Nil))) == [ValueOf(x), ValueOf(y)]
  {
    assert AllWellFormed(Nil) && ValuesOf(Nil) == [];
    assert AllWellFormed(Cons(y, Nil)) && ValuesOf(Cons(y, Nil)) == [ValueOf(y)];
  }

  function RefFields(r: OutputReference): (items: Items)
    requires ValidRef(r)
    ensures AllWellFormed(items) && ValuesOf(items) == [ByteString(r.txId), UInt(MinorHead(r.outputIndex).n)]
  {
    var id, index := BytesItem(Shortest(32), r.txId), UIntItem(MinorHead(r.outputIndex));
    TwoItems(id, index);
    Cons(id, Cons(index, Nil))
  }

  /** The reference as an encoding of the reader's grammar: Constr 0 over an open array. */
  function RefItem(r: OutputReference): (item: Item)
    requires ValidRef(r)
    ensures WellFormed(item) && ValueOf(item) == Constr(0, Array([ByteString(r.txId), UInt(MinorHead(r.outputIndex).n)]))
  {
    TagHead();
    var payload := OpenArrayItem(RefFields(r));
    assert WellFormed(payload) && ValueOf(payload) == Array([ByteString(r.txId), UInt(MinorHead(r.outputIndex).n)]);
    TagItem(Head(1, 121), payload)
  }

  function RefValue(r: OutputReference): Value
    requires r.outputIndex >= 0
  {
    Constr(0, Array([ByteString(r.txId), UInt(r.outputIndex)]))
  }

  /** encodeOutputReference (gen-encoding-parity.ts:166-175). */
  method EncodeOutputReference(r: OutputReference) returns (b: Result<seq<Byte>, EncodeError>)
    ensures b == if ValidRef(r) then Ok(Print(RefItem(r))) else Err(RefError(r))
  {
    if |r.txId| != 32 {
      return Err(BadValue);
    }
    var id := CborBytes(r.txId);
    var index := CborMinorInt(r.outputIndex);
    if index.Err? {
      return Err(Negative);
    }
    RefBytes(r);
    b := Ok([0xd8, 0x79, 0x9f] + id + index.value + [0xff]);
  }

  lemma TagHead()
    ensures Fits(Head(1, 121)) && PrintHead(6, Head(1, 121)) == [0xd8, 0x79]
  {
    PowersOf256();
    OneByte(121);
  }

  lemma FieldBytes(r: OutputReference)
    requires ValidRef(r)
    ensures PrintAll(RefFields(r)) == StringBytes(r.txId) + MinorInt(r.outputIndex)
  {
    var id, index := BytesItem(Shortest(32), r.txId), UIntItem(MinorHead(r.outputIndex));
    hide PrintHead, Shortest, MinorHead;
    assert PrintAll(Cons(index, Nil)) == Print(index) + [];
  }

  lemma RefBytes(r: OutputReference)
    requires ValidRef(r)
    ensures Print(RefItem(r)) == [0xd8, 0x79, 0x9f] + StringBytes(r.txId) + MinorInt(r.outputIndex) + [0xff]
  {
    TagHead();
    FieldBytes(r);
    var payload := OpenArrayItem(RefFields(r));
    assert Print(RefItem(r)) == PrintHead(6, Head(1, 121)) + Print(payload);
    hide PrintHead, Shortest, RefFields, StringBytes, MinorInt;
    assert Print(payload) == [0x9f] + PrintAll(RefFields(r)) + [0xff];
    Reassociate([0xd8, 0x79], [0x9f], StringBytes(r.txId), MinorInt(r.outputIndex), [0xff]);
    assert [0xd8, 0x79] + [0x9f] == [0xd8, 0x79, 0x9f];
  }

  lemma Reassociate<T>(a: seq<T>, b: seq<T>, c: seq<T>, d: seq<T>, e: seq<T>)
    ensures a + (b + (c + d) + e) == (a + b) + c + d + e
  {
  }

  predicate ValidRefs(refs: seq<OutputReference>) {
    forall i :: 0 <= i < |refs| ==> ValidRef(refs[i])
  }

  function RefItems(refs: seq<OutputReference>): (items: Items)
    requires ValidRefs(refs)
    ensures AllWellFormed(items)
  {
    if refs == [] then Nil else Cons(RefItem(refs[0]), RefItems(refs[1..]))
  }

  function RefValues(refs: seq<OutputReference>): seq<Value>
    requires ValidRefs(refs)
  {
    seq(|refs|, i requires 0 <= i < |refs| => RefValue(refs[i]))
  }

  lemma {:induction false} RefItemAt(refs: seq<OutputReference>, k: nat)
    requires ValidRefs(refs) && k < |refs|
    ensures |ValuesOf(RefItems(refs))| == |refs| && ValuesOf(RefItems(refs))[k] == ValueOf(RefItem(refs[k]))
  {
    hide RefItem;
    if |refs| > 1 {
      RefItemAt(refs[1..], if k > 0 then k - 1 else 0);
    } else {
      assert refs[1..] == [] && ValuesOf(Nil) == [];
    }
  }

  lemma {:induction false} RefItemsAppend(refs: seq<OutputReference>, r: OutputReference)
    requires ValidRefs(refs + [r])
    ensures ValidRefs(refs) && ValidRef(r) && PrintAll(RefItems(refs + [r])) == PrintAll(RefItems(refs)) + Print(RefItem(r))
  {
    assert (refs + [r])[|refs|] == r;
    forall i | 0 <= i < |refs| ensures ValidRef(refs[i]) {
      assert (refs + [r])[i] == refs[i];
    }
    hide RefItem;
    if refs == [] {
      assert refs + [r] == [r] && [r][1..] == [];
      assert PrintAll(Cons(RefItem(r), Nil)) == Print(RefItem(r)) + [];
    } else {
      assert (refs + [r])[1..] == refs[1..] + [r];
      RefItemsAppend(refs[1..], r);
    }
  }

  /** encodeOutputRefList (gen-encoding-parity.ts:177-184): the first reference that is not valid decides the error. */
  method EncodeOutputRefList(refs: seq<OutputReference>) returns (b: Result<seq<Byte>, EncodeError>)
    ensures ValidRefs(refs) ==> b == Ok(Print(OpenArrayItem(RefItems(refs))))
    ensures forall i :: 0 <= i < |refs| && ValidRefs(refs[..i]) && !ValidRef(refs[i]) ==> b == Err(RefError(refs[i]))
  {
    hide RefItem, RefItems, ValidRef, RefError;
    var out: seq<Byte> := [0x9f];
    NoRefs();
    assert refs[..0] == [];
    for i := 0 to |refs|
      invariant ValidRefs(refs[..i]) && out == [0x9f] + PrintAll(RefItems(refs[..i]))
    {
      var one := EncodeOutputReference(refs[i]);
      assert refs[..i + 1] == refs[..i] + [refs[i]];
      if one.Err? {
        FirstBad(refs, i);
        return one;
      }
      RefItemsAppend(refs[..i], refs[i]);
      Regroup([0x9f], PrintAll(RefItems(refs[..i])), one.value);
      out := out + one.value;
    }
    assert refs[..|refs|] == refs;
    AllGood(refs);
    b := Ok(out + [0xff]);
  }

  lemma AllGood(refs: seq<OutputReference>)
    requires ValidRefs(refs)
    ensures forall i :: 0 <= i < |refs| ==> ValidRef(refs[i])
  {
  }

  lemma FirstBad(refs: seq<OutputReference>, n: nat)
    requires n < |refs| && ValidRefs(refs[..n]) && !ValidRef(refs[n])
    ensures !ValidRefs(refs) && forall i :: 0 <= i < |refs| && ValidRefs(refs[..i]) && !ValidRef(refs[i]) ==> i == n
  {
    hide ValidRef;
  }

  lemma NoRefs()
    ensures RefItems([]) == Nil && PrintAll(Nil) == []
  {
  }

  /** A list of references is read back whole by the datum reader if and only if every index fits 64 bits. */
  lemma RefListReadsBackIff(refs: seq<OutputReference>)
    requires ValidRefs(refs)
    ensures var b := Print(OpenArrayItem(RefItems(refs)));
            ReadValue(b) == Got(Array(RefValues(refs)), |b|) <==>
            forall i :: 0 <= i < |refs| ==> refs[i].outputIndex <= MAX_TOKEN_QUANTITY
  {
    var item := OpenArrayItem(RefItems(refs));
    ReadAfterPrint(item, []);
    assert Print(item) + [] == Print(item);
    var values := ValuesOf(RefItems(refs));
    assert ValueOf(item) == Array(values);
    hide RefItem, ReadValue, Print;
    if refs == [] {
      assert values == [] == RefValues(refs);
    } else {
      RefItemAt(refs, 0);
    }
    forall i | 0 <= i < |refs| ensures values[i] == RefValues(refs)[i] <==> refs[i].outputIndex <= MAX_TOKEN_QUANTITY {
      RefItemAt(refs, i);
      SameIndexIff(refs[i]);
    }
    assert values == RefValues(refs) <==> forall i :: 0 <= i < |refs| ==> values[i] == RefValues(refs)[i];
  }

  lemma SameIndexIff(r: OutputReference)
    requires ValidRef(r)
    ensures ValueOf(RefItem(r)) == RefValue(r) <==> r.outputIndex <= MAX_TOKEN_QUANTITY
  {
    hide RefItem, MinorHead;
    var x, y := [ByteString(r.txId), UInt(MinorHead(r.outputIndex).n)], [ByteString(r.txId), UInt(r.outputIndex)];
    assert x[1] == y[1] <==> MinorHead(r.outputIndex).n == r.outputIndex;
    assert x == y <==> x[1] == y[1];
  }
}
