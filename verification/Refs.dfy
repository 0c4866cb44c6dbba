/** UTxO references and the string keys the program builds from them
    (backend/src/indexer/types.ts:8-25, offchain/src/strategy/fanout.ts:407-427).

    The lemmas here show that the strings carry exactly the values they are built from; the other
    modules therefore key their maps by the values. */
module Refs {
  import opened Options

  datatype UtxoRef = UtxoRef(txId: string, outputIndex: nat)

  function Digit(d: nat): char
    requires d < 10
  {
    '0' + d as char
  }

  predicate IsDigit(c: char) { '0' <= c <= '9' }

  /** The decimal text of a number, as a template string prints it. */
  function Decimal(n: nat): (s: string)
    ensures s != [] && forall i :: 0 <= i < |s| ==> IsDigit(s[i])
  {
    if n < 10 then [Digit(n)] else Decimal(n / 10) + [Digit(n % 10)]
  }

  /** The value of a string of digits; `None` for anything else. */
  function ParseDecimal(s: string): Option<nat> {
    if s == [] then None
    else
      var last := s[|s| - 1];
      if !IsDigit(last) then None
      else if |s| == 1 then Some((last - '0') as nat)
      else
        var front := ParseDecimal(s[..|s| - 1]);
        if front.None? then None else Some(front.value * 10 + (last - '0') as nat)
  }

  lemma {:induction false} DecimalRoundTrip(n: nat)
    ensures ParseDecimal(Decimal(n)) == Some(n)
  {
    if n >= 10 {
      DecimalRoundTrip(n / 10);
      assert Decimal(n)[..|Decimal(n)| - 1] == Decimal(n / 10);
    }
  }

  /** The part before the first `c`, if `c` occurs. */
  function IndexOf(s: string, c: char): (i: nat)
    ensures i <= |s| && (i < |s| ==> s[i] == c) && forall k :: 0 <= k < i ==> s[k] != c
  {
    if s == [] || s[0] == c then 0 else 1 + IndexOf(s[1..], c)
  }

  /** utxoKey (types.ts:17-19). */
  function UtxoKey(r: UtxoRef): string { r.txId + "#" + Decimal(r.outputIndex) }

  /** Read from the end: digits, then '#'. */
  lemma KeyTail(r: UtxoRef)
    ensures var k, n := UtxoKey(r), |Decimal(r.outputIndex)|;
            n < |k| && k[|k| - 1 - n] == '#' && forall i :: |k| - n <= i < |k| ==> IsDigit(k[i])
  {
    var k, x := UtxoKey(r), Decimal(r.outputIndex);
    assert k == r.txId + ("#" + x);
    forall i | |k| - |x| <= i < |k| ensures IsDigit(k[i]) {
      assert k[i] == x[i - (|k| - |x|)];
    }
  }

  lemma SameTail(r: UtxoRef, s: UtxoRef)
    requires UtxoKey(r) == UtxoKey(s)
    ensures |Decimal(r.outputIndex)| == |Decimal(s.outputIndex)|
  {
    KeyTail(r);
    KeyTail(s);
  }

  /** Different references never share a key, whatever characters the transaction id holds: the
      digits after the last '#' are the index. */
  lemma UtxoKeyInjective(r: UtxoRef, s: UtxoRef)
    requires UtxoKey(r) == UtxoKey(s)
    ensures r == s
  {
    var x, y := Decimal(r.outputIndex), Decimal(s.outputIndex);
    var k := UtxoKey(r);
    assert k == r.txId + ("#" + x) && k == s.txId + ("#" + y);
    SameTail(r, s);
    assert k[|k| - |x|..] == x && k[|k| - |y|..] == y;
    assert k[..|r.txId|] == r.txId && k[..|s.txId|] == s.txId;
    DecimalRoundTrip(r.outputIndex);
    DecimalRoundTrip(s.outputIndex);
  }

  function LowerChar(c: char): char { if 'A' <= c <= 'Z' then (c as int + 32) as char else c }

  function Lower(s: string): (t: string)
    ensures |t| == |s|
  {
    seq(|s|, i requires 0 <= i < |s| => LowerChar(s[i]))
  }

  function LowerRef(r: UtxoRef): UtxoRef { UtxoRef(Lower(r.txId), r.outputIndex) }

  /** refKey (fanout.ts:407-409). */
  function RefKey(r: UtxoRef): string { UtxoKey(LowerRef(r)) }

  /** parseRefKey (fanout.ts:411-421). */
  function ParseRefKey(key: string): Option<UtxoRef> {
    var hash := IndexOf(key, '#');
    if hash == |key| || hash == 0 then None
    else
      var idx := ParseDecimal(key[hash + 1..]);
      if idx.None? then None else Some(UtxoRef(key[..hash], idx.value))
  }

  predicate HexId(id: string) {
    id != "" && forall i :: 0 <= i < |id| ==> IsDigit(id[i]) || 'a' <= id[i] <= 'f' || 'A' <= id[i] <= 'F'
  }

  /** Parsing undoes the key up to the case of the transaction id. */
  lemma RefKeyRoundTrip(r: UtxoRef)
    requires HexId(r.txId)
    ensures ParseRefKey(RefKey(r)) == Some(LowerRef(r))
  {
    var id, x := Lower(r.txId), Decimal(r.outputIndex);
    var key := RefKey(r);
    assert key == id + ("#" + x);
    forall i | 0 <= i < |id| ensures key[i] != '#' {
      assert key[i] == LowerChar(r.txId[i]);
    }
    assert key[|id|] == '#';
    assert IndexOf(key, '#') == |id|;
    assert key[|id| + 1..] == x && key[..|id|] == id;
    DecimalRoundTrip(r.outputIndex);
  }

  /** `w<wave>s<slot>` (fanout.ts:280, 423-427). */
  function SlotKey(wave: nat, slot: nat): string { "w" + Decimal(wave) + "s" + Decimal(slot) }

  function ParseSlotKey(key: string): Option<(nat, nat)> {
    if key == "" || key[0] != 'w' then None
    else
      var s := IndexOf(key, 's');
      if s == |key| || s == 0 then None
      else
        var wave, slot := ParseDecimal(key[1..s]), ParseDecimal(key[s + 1..]);
        if wave.None? || slot.None? then None else Some((wave.value, slot.value))
  }

  lemma SlotKeyRoundTrip(wave: nat, slot: nat)
    ensures ParseSlotKey(SlotKey(wave, slot)) == Some((wave, slot))
  {
    var x, y, key := Decimal(wave), Decimal(slot), SlotKey(wave, slot);
    assert key == "w" + x + ("s" + y);
    forall i | 0 <= i < 1 + |x| ensures key[i] != 's' {
      assert key[i] == ("w" + x)[i];
    }
    assert key[1 + |x|] == 's';
    assert IndexOf(key, 's') == 1 + |x|;
    assert key[1..1 + |x|] == x && key[|x| + 2..] == y;
    DecimalRoundTrip(wave);
    DecimalRoundTrip(slot);
  }
}
