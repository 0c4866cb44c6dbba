/** The exact value of a mix box, and its two encoders (offchain/src/tx/box-value.ts:52-234;
    crypto/ref/src/value.rs). */
module BoxValue {
  import opened Bits
  import opened Bytes
  import opened Cbor
  import opened Encoders
  import opened Options

  /** Policy and name are hex text. */
  datatype PoolToken = PoolToken(policy: string, name: string, quantity: int)

  datatype BoxValue = BoxValue(lovelace: int, token: Option<PoolToken>)

  predicate IsHexDigit(c: char) { '0' <= c <= '9' || 'a' <= c <= 'f' }

  predicate IsHex(s: string, n: nat) { |s| == 2 * n && forall i :: 0 <= i < |s| ==> IsHexDigit(s[i]) }

  function DigitValue(c: char): (d: nat)
    requires IsHexDigit(c)
    ensures d < 16
  {
    if c <= '9' then (c - '0') as nat else (c - 'a') as nat + 10
  }

  lemma DigitValueInjective(c: char, d: char)
    requires IsHexDigit(c) && IsHexDigit(d) && DigitValue(c) == DigitValue(d)
    ensures c == d
  {
  }

  /** hexToBytes (box-value.ts:230-234), on lowercase hex. */
  function HexBytes(s: string, n: nat): (b: seq<Byte>)
    requires IsHex(s, n)
    ensures |b| == n
  {
    seq(n, i requires 0 <= i < n => DigitValue(s[2 * i]) * 16 + DigitValue(s[2 * i + 1]))
  }

  lemma HexBytesInjective(s: string, t: string, n: nat)
    requires IsHex(s, n) && IsHex(t, n) && HexBytes(s, n) == HexBytes(t, n)
    ensures s == t
  {
    forall i | 0 <= i < n ensures s[2 * i] == t[2 * i] && s[2 * i + 1] == t[2 * i + 1] {
      assert HexBytes(s, n)[i] == HexBytes(t, n)[i];
      PairInjective(s[2 * i], s[2 * i + 1], t[2 * i], t[2 * i + 1]);
    }
    hide HexBytes, IsHex;
    forall j | 0 <= j < |s| ensures s[j] == t[j] {
      var i := j / 2;
      assert s[2 * i] == t[2 * i];
    }
  }

  lemma PairInjective(c: char, d: char, c': char, d': char)
    requires IsHexDigit(c) && IsHexDigit(d) && IsHexDigit(c') && IsHexDigit(d')
    requires DigitValue(c) * 16 + DigitValue(d) == DigitValue(c') * 16 + DigitValue(d')
    ensures c == c' && d == d'
  {
    hide DigitValue, IsHexDigit;
    assert DigitValue(d) == DigitValue(d');
    DigitValueInjective(c, c');
    DigitValueInjective(d, d');
  }

  /** What assertBoxValue lets through (box-value.ts:61-76). */
  predicate ValidToken(t: PoolToken) {
    IsHex(t.policy, 28) && |t.name| % 2 == 0 && |t.name| <= 64 && IsHex(t.name, |t.name| / 2) &&
    0 < t.quantity <= MAX_TOKEN_QUANTITY
  }

  predicate Asserted(v: BoxValue) { v.lovelace > 0 && (v.token.Some? ==> ValidToken(v.token.value)) }

  /** The values both encoders take: lovelace in 64 bits as well. */
  predicate Encodable(v: BoxValue) { Asserted(v) && v.lovelace <= MAX_TOKEN_QUANTITY }

  /** The bytes of a Plutus value: a map of one policy or two, ADA's first. */
  function BoxBytes(v: BoxValue): seq<Byte>
    requires Encodable(v)
  {
    var ada := [0x40, 0xa1, 0x40] + PrintHead(0, Shortest(v.lovelace));
    match v.token
    case None => [0xa1] + ada
    case Some(t) => [0xa2] + ada + TokenBytes(t)
  }

  function TokenBytes(t: PoolToken): seq<Byte>
    requires ValidToken(t)
  {
    StringBytes(HexBytes(t.policy, 28)) + ([0xa1] + (StringBytes(HexBytes(t.name, |t.name| / 2)) + PrintHead(0, Shortest(t.quantity))))
  }

  // ---- TypeScript ----

  /** encodeCborBytes (box-value.ts:211-216). */
  method EncodeCborBytes(bytes: seq<Byte>) returns (r: Result<seq<Byte>, EncodeError>)
    ensures r == Err(TooLong) <==> |bytes| >= 0x100
    ensures |bytes| < 0x100 ==> r == Ok(StringBytes(bytes))
  {
    if |bytes| >= 0x100 {
      return Err(TooLong);
    }
    HeadBytes(2, |bytes|);
    hide PrintHead, Shortest, FromNat;
    var header := if |bytes| < 24 then [0x40 + |bytes|] else [0x58, |bytes|];
    r := Ok(header + bytes);
  }

  /** encodeBoxValueCbor (box-value.ts:159-178). */
  method EncodeBoxValueCbor(v: BoxValue) returns (r: Result<seq<Byte>, EncodeError>)
    ensures r == Err(BadValue) <==> !Asserted(v)
    ensures r == Err(TooLarge) <==> Asserted(v) && v.lovelace > MAX_TOKEN_QUANTITY
    ensures Encodable(v) ==> r == Ok(BoxBytes(v))
  {
    if !Asserted(v) {
      return Err(BadValue);
    }
    hide PrintHead, Shortest, StringBytes, IsHex, HexBytes;
    var lovelace := EncodeCborUInt(v.lovelace);
    if lovelace.Err? {
      return Err(TooLarge);
    }
    var lovelaceEntry := [0x40] + [0xa1] + [0x40] + lovelace.value;
    assert lovelaceEntry == [0x40, 0xa1, 0x40] + lovelace.value;
    if v.token.None? {
      return Ok([0xa1] + lovelaceEntry);
    }
    var t := v.token.value;
    var policy := EncodeCborBytes(HexBytes(t.policy, 28));
    var name := EncodeCborBytes(HexBytes(t.name, |t.name| / 2));
    var quantity := EncodeCborUInt(t.quantity);
    var tail := policy.value + [0xa1] + name.value + quantity.value;
    TokenFlat(policy.value, name.value, quantity.value);
    r := Ok([0xa2] + lovelaceEntry + tail);
  }

  lemma TokenFlat(policy: seq<Byte>, name: seq<Byte>, quantity: seq<Byte>)
    ensures policy + [0xa1] + name + quantity == policy + ([0xa1] + (name + quantity))
  {
  }

  // ---- Rust ----

  lemma HeadIs(major: nat, n: nat)
    requires major < 8 && n <= MAX_TOKEN_QUANTITY
    ensures n <= 23 ==> PrintHead(major, Shortest(n)) == [InitialByte(major, n)]
    ensures 23 < n <= 0xff ==> PrintHead(major, Shortest(n)) == [InitialByte(major, 24), n]
    ensures 0xff < n <= 0xffff ==> PrintHead(major, Shortest(n)) == [InitialByte(major, 25)] + FromNat(n, 2)
    ensures 0xffff < n <= 0xffff_ffff ==> PrintHead(major, Shortest(n)) == [InitialByte(major, 26)] + FromNat(n, 4)
    ensures 0xffff_ffff < n ==> PrintHead(major, Shortest(n)) == [InitialByte(major, 27)] + FromNat(n, 8)
  {
    HeadBytes(major, n);
    hide FromNat, Fits;
  }

  /** push_head (value.rs:42-60). */
  method PushHead(out: seq<Byte>, major: nat, n: nat) returns (r: seq<Byte>)
    requires major < 8 && n <= MAX_TOKEN_QUANTITY
    ensures r == out + PrintHead(major, Shortest(n))
  {
    HeadIs(major, n);
    hide *;
    r := out;
    if n <= 23 {
      r := r + [InitialByte(major, n)];
    } else if n <= 0xff {
      r := r + [InitialByte(major, 24), n];
    } else if n <= 0xffff {
      r := r + [InitialByte(major, 25)];
      r := r + FromNat(n, 2);
      Regroup(out, [InitialByte(major, 25)], FromNat(n, 2));
    } else if n <= 0xffff_ffff {
      r := r + [InitialByte(major, 26)];
      r := r + FromNat(n, 4);
      Regroup(out, [InitialByte(major, 26)], FromNat(n, 4));
    } else {
      r := r + [InitialByte(major, 27)];
      r := r + FromNat(n, 8);
      Regroup(out, [InitialByte(major, 27)], FromNat(n, 8));
    }
  }

  /** push_bytes (value.rs:67-74). */
  method PushBytes(out: seq<Byte>, b: seq<Byte>) returns (r: seq<Byte>)
    requires |b| <= 64
    ensures r == out + StringBytes(b)
  {
    hide PrintHead, Shortest;
    r := PushHead(out, 2, |b|);
    Regroup(out, PrintHead(2, Shortest(|b|)), b);
    r := r + b;
  }

  datatype Token = Token(policy: seq<Byte>, name: seq<Byte>, quantity: nat)

  /** encode_box_value (value.rs:22-39); its assertions are preconditions. */
  method EncodeBoxValue(lovelace: nat, token: Option<Token>) returns (out: seq<Byte>)
    requires lovelace <= MAX_TOKEN_QUANTITY
    requires token.Some? ==> |token.value.policy| == 28 && |token.value.name| <= 32 && token.value.quantity <= MAX_TOKEN_QUANTITY
    ensures out == RustBytes(lovelace, token)
  {
    hide PrintHead, Shortest, StringBytes;
    out := [];
    out := out + [0xa0 + if token.Some? then 2 else 1];
    out := PushBytes(out, []);
    out := out + [0xa1];
    out := PushBytes(out, []);
    out := PushHead(out, 0, lovelace);
    assert out == RustBytes(lovelace, None)[0 := out[0]];
    if token.Some? {
      var t := token.value;
      ghost var ada := out;
      out := PushBytes(out, t.policy);
      out := out + [0xa1];
      out := PushBytes(out, t.name);
      out := PushHead(out, 0, t.quantity);
      RustFlat(ada, StringBytes(t.policy), StringBytes(t.name), PrintHead(0, Shortest(t.quantity)));
    }
  }

  lemma RustFlat(ada: seq<Byte>, policy: seq<Byte>, name: seq<Byte>, quantity: seq<Byte>)
    ensures ada + policy + [0xa1] + name + quantity == ada + (policy + ([0xa1] + (name + quantity)))
  {
  }

  function RustBytes(lovelace: nat, token: Option<Token>): (b: seq<Byte>)
    requires lovelace <= MAX_TOKEN_QUANTITY
    requires token.Some? ==> |token.value.policy| == 28 && |token.value.name| <= 32 && token.value.quantity <= MAX_TOKEN_QUANTITY
    ensures b != []
  {
    var empty := StringBytes([]);
    var ada := empty + [0xa1] + empty + PrintHead(0, Shortest(lovelace));
    match token
    case None => [0xa1] + ada
    case Some(t) =>
      [0xa2] + ada + (StringBytes(t.policy) + ([0xa1] + (StringBytes(t.name) + PrintHead(0, Shortest(t.quantity)))))
  }

  /** The same value as the Rust types have it. */
  function RustToken(v: BoxValue): (t: Option<Token>)
    requires Asserted(v)
    ensures t.Some? ==> |t.value.policy| == 28 && |t.value.name| <= 32 && t.value.quantity <= MAX_TOKEN_QUANTITY
  {
    match v.token
    case None => None
    case Some(t) => Some(Token(HexBytes(t.policy, 28), HexBytes(t.name, |t.name| / 2), t.quantity))
  }

  /** The two encoders agree on every valid value. */
  lemma EncodersAgree(v: BoxValue)
    requires Encodable(v)
    ensures RustBytes(v.lovelace, RustToken(v)) == BoxBytes(v)
  {
    HeadBytes(2, 0);
    assert StringBytes([]) == [0x40];
    hide PrintHead, Shortest, StringBytes, IsHex, HexBytes;
    var lovelace := PrintHead(0, Shortest(v.lovelace));
    assert [0x40] + [0xa1] + [0x40] + lovelace == [0x40, 0xa1, 0x40] + lovelace;
  }

  // ---- injectivity ----

  /** A shortest head is read off the front: equal bytes, equal numbers, equal rest. */
  lemma HeadsSplit(major: nat, m: nat, n: nat, x: seq<Byte>, y: seq<Byte>)
    requires major < 8 && m <= MAX_TOKEN_QUANTITY && n <= MAX_TOKEN_QUANTITY
    requires PrintHead(major, Shortest(m)) + x == PrintHead(major, Shortest(n)) + y
    ensures m == n && x == y
  {
    HeadRoundTrip(major, Shortest(m), x);
    HeadRoundTrip(major, Shortest(n), y);
    After(PrintHead(major, Shortest(m)), x);
    After(PrintHead(major, Shortest(n)), y);
  }

  lemma StringsSplit(a: seq<Byte>, b: seq<Byte>, x: seq<Byte>, y: seq<Byte>)
    requires |a| <= 64 && |b| <= 64 && StringBytes(a) + x == StringBytes(b) + y
    ensures a == b && x == y
  {
    Regroup(PrintHead(2, Shortest(|a|)), a, x);
    Regroup(PrintHead(2, Shortest(|b|)), b, y);
    HeadsSplit(2, |a|, |b|, a + x, b + y);
    After(a, x);
    After(b, y);
  }

  lemma TokensSplit(s: PoolToken, t: PoolToken)
    requires ValidToken(s) && ValidToken(t) && TokenBytes(s) == TokenBytes(t)
    ensures s == t
  {
    hide PrintHead, Shortest, StringBytes;
    var m, n := HexBytes(s.name, |s.name| / 2), HexBytes(t.name, |t.name| / 2);
    var p, q := PrintHead(0, Shortest(s.quantity)), PrintHead(0, Shortest(t.quantity));
    StringsSplit(HexBytes(s.policy, 28), HexBytes(t.policy, 28), [0xa1] + (StringBytes(m) + p), [0xa1] + (StringBytes(n) + q));
    After([0xa1], StringBytes(m) + p);
    After([0xa1], StringBytes(n) + q);
    StringsSplit(m, n, p, q);
    assert p + [] == p && q + [] == q;
    HeadsSplit(0, s.quantity, t.quantity, [], []);
    HexBytesInjective(s.policy, t.policy, 28);
    HexBytesInjective(s.name, t.name, |s.name| / 2);
  }

  /** Different values never share an encoding. */
  lemma BoxBytesInjective(v: BoxValue, w: BoxValue)
    requires Encodable(v) && Encodable(w) && BoxBytes(v) == BoxBytes(w)
    ensures v == w
  {
    hide PrintHead, Shortest, TokenBytes, ValidToken;
    var x := if v.token.Some? then TokenBytes(v.token.value) else [];
    var y := if w.token.Some? then TokenBytes(w.token.value) else [];
    FirstByte(v);
    FirstByte(w);
    BoxAfterPrefix(v, x);
    BoxAfterPrefix(w, y);
    HeadsSplit(0, v.lovelace, w.lovelace, x, y);
    if v.token.Some? {
      TokensSplit(v.token.value, w.token.value);
    }
  }

  lemma FirstByte(v: BoxValue)
    requires Encodable(v)
    ensures BoxBytes(v) != [] && BoxBytes(v)[0] == if v.token.None? then 0xa1 else 0xa2
  {
    hide PrintHead, Shortest, TokenBytes, ValidToken;
  }

  lemma BoxAfterPrefix(v: BoxValue, x: seq<Byte>)
    requires Encodable(v) && x == if v.token.Some? then TokenBytes(v.token.value) else []
    ensures |BoxBytes(v)| >= 4 && BoxBytes(v)[4..] == PrintHead(0, Shortest(v.lovelace)) + x
  {
    hide PrintHead, Shortest, TokenBytes, ValidToken;
  }

  // ---- the box check ----

  function NonZero(assets: map<string, int>): map<string, int> { map u | u in assets && assets[u] != 0 :: assets[u] }

  /** boxValueAssetMap (box-value.ts:121-123). */
  function AssetMap(v: BoxValue): map<string, int> {
    if v.token.Some? then map[v.token.value.policy + v.token.value.name := v.token.value.quantity] else map[]
  }

  /** utxoHoldsBoxValue (box-value.ts:139-145); `units` are the keys with a non-zero quantity. */
  method UtxoHoldsBoxValue(lovelace: int, assets: map<string, int>, v: BoxValue) returns (b: bool)
    ensures b <==> lovelace == v.lovelace && NonZero(assets) == AssetMap(v)
  {
    if lovelace != v.lovelace {
      return false;
    }
    var units := set u | u in assets && assets[u] != 0;
    assert NonZero(assets).Keys == units;
    if v.token.None? {
      assert units == {} ==> NonZero(assets) == map[];
      return |units| == 0;
    }
    var unit := v.token.value.policy + v.token.value.name;
    assert AssetMap(v).Keys == {unit};
    b := units == {unit} && assets[unit] == v.token.value.quantity;
  }
}
