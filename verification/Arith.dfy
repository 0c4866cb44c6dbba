/** Arithmetic modulo a positive number, and modulo a prime. */
module Arith {
  /** `x` and `y` agree modulo `r`. */
  predicate Cong(x: int, y: int, r: nat)
    requires r > 0
  {
    (x - y) % r == 0
  }

  lemma MultipleGrows(d: int, r: nat)
    ensures d > 0 ==> d * r >= r
    ensures d < 0 ==> d * r <= -(r as int)
  {
    if d > 0 {
      assert (d - 1) * r >= 0;
    } else if d < 0 {
      assert (-d - 1) * r >= 0;
    }
  }

  lemma MultipleIsZero(k: int, r: nat)
    requires r > 0
    ensures (k * r) % r == 0
  {
    var x := k * r;
    assert x % r == (k - x / r) * r by {
      assert (k - x / r) * r == k * r - (x / r) * r;
    }
    MultipleGrows(k - x / r, r);
  }

  /** Agreement modulo `r` means differing by a multiple of `r`. */
  lemma CongByFactor(x: int, y: int, r: nat, k: int)
    requires r > 0 && x - y == k * r
    ensures Cong(x, y, r)
  {
    MultipleIsZero(k, r);
  }

  lemma Factor(x: int, y: int, r: nat) returns (k: int)
    requires r > 0 && Cong(x, y, r)
    ensures x - y == k * r
  {
    k := (x - y) / r;
  }

  lemma CongMod(x: int, r: nat)
    requires r > 0
    ensures Cong(x, x % r, r) && Cong(x % r, x, r)
  {
    CongByFactor(x, x % r, r, x / r);
    CongByFactor(x % r, x, r, -(x / r));
  }

  lemma CongRefl(x: int, r: nat)
    requires r > 0
    ensures Cong(x, x, r)
  {
  }

  lemma CongSym(x: int, y: int, r: nat)
    requires r > 0 && Cong(x, y, r)
    ensures Cong(y, x, r)
  {
    var k := Factor(x, y, r);
    CongByFactor(y, x, r, -k);
  }

  lemma CongTrans(x: int, y: int, z: int, r: nat)
    requires r > 0 && Cong(x, y, r) && Cong(y, z, r)
    ensures Cong(x, z, r)
  {
    var k := Factor(x, y, r);
    var l := Factor(y, z, r);
    assert (k + l) * r == k * r + l * r;
    CongByFactor(x, z, r, k + l);
  }

  lemma CongAdd(x: int, x': int, y: int, y': int, r: nat)
    requires r > 0 && Cong(x, x', r) && Cong(y, y', r)
    ensures Cong(x + y, x' + y', r) && Cong(x - y, x' - y', r)
  {
    var k := Factor(x, x', r);
    var l := Factor(y, y', r);
    assert (k + l) * r == k * r + l * r && (k - l) * r == k * r - l * r;
    CongByFactor(x + y, x' + y', r, k + l);
    CongByFactor(x - y, x' - y', r, k - l);
  }

  lemma CongMul(x: int, x': int, y: int, y': int, r: nat)
    requires r > 0 && Cong(x, x', r) && Cong(y, y', r)
    ensures Cong(x * y, x' * y', r)
  {
    var k := Factor(x, x', r);
    var l := Factor(y, y', r);
    assert x * y - x' * y' == (x - x') * y + x' * (y - y');
    assert (k * y + x' * l) * r == (k * r) * y + x' * (l * r);
    CongByFactor(x * y, x' * y', r, k * y + x' * l);
  }

  /** Two residues below `r` are equal exactly when they agree modulo `r`. */
  lemma CongIsModEqual(x: int, y: int, r: nat)
    requires r > 0
    ensures x % r == y % r <==> Cong(x, y, r)
  {
    var k := x / r - y / r;
    assert k * r == (x / r) * r - (y / r) * r;
    if x % r == y % r {
      CongByFactor(x, y, r, k);
    }
    if Cong(x, y, r) {
      var l := Factor(x, y, r);
      var d := l - k;
      assert d * r == l * r - k * r;
      assert x % r - y % r == d * r;
      MultipleGrows(d, r);
    }
  }

  lemma SmallMod(c: nat, r: nat)
    requires c < r
    ensures c % r == c
  {
  }

  lemma ResidueIsZero(c: nat, r: nat)
    requires c < r
    ensures Cong(c, 0, r) <==> c == 0
  {
    SmallMod(c, r);
  }

  predicate Divides(d: nat, n: nat)
    requires d > 0
  {
    n % d == 0
  }

  ghost predicate IsPrime(p: nat) {
    p >= 2 && forall d :: 2 <= d < p ==> !Divides(d, p)
  }

  /** The inverse of a non-zero residue, by the division recursion. */
  ghost function Inverse(a: nat, p: nat): (t: nat)
    requires IsPrime(p) && 0 < a < p
    ensures 0 < t < p && Cong(a * t, 1, p)
    decreases a
  {
    if a == 1 then
      OneInverts(p);
      1
    else
      NoRemainderZero(a, p);
      var t := Inverse(p % a, p);
      InverseStep(a, p, t);
      Negated(p / a, t, p)
  }

  function Negated(q: nat, t: nat, p: nat): nat
    requires p > 0
  {
    (-(q * t)) % p
  }

  lemma OneInverts(p: nat)
    requires p > 0
    ensures Cong(1 * 1, 1, p)
  {
  }

  lemma NoRemainderZero(a: nat, p: nat)
    requires IsPrime(p) && 1 < a < p
    ensures 0 < p % a < a
  {
    assert !Divides(a, p);
  }

  lemma OneIsNotZero(p: nat)
    requires p >= 2
    ensures !Cong(0, 1, p)
  {
    assert (0 - 1) % p == p - 1;
  }

  lemma NegatedStep(a: int, p: int, q: int, s: int, t: int)
    requires p == q * a + s
    ensures a * -(q * t) - s * t == -t * p
  {
    assert a * -(q * t) == -(q * a) * t;
    assert (s - p) * t == s * t - p * t;
  }

  lemma InverseStep(a: nat, p: nat, t: nat)
    requires p >= 2 && 0 < a < p && Cong(p % a * t, 1, p)
    ensures var u := Negated(p / a, t, p); 0 < u < p && Cong(a * u, 1, p)
  {
    hide Cong;
    var q, s := p / a, p % a;
    var u := Negated(q, t, p);
    CongMod(-(q * t), p);
    CongRefl(a, p);
    CongMul(a, a, u, -(q * t), p);
    NegatedStep(a, p, q, s, t);
    CongByFactor(a * -(q * t), s * t, p, -(t as int));
    CongTrans(a * u, a * -(q * t), s * t, p);
    CongTrans(a * u, s * t, 1, p);
    OneIsNotZero(p);
    assert u == 0 ==> a * u == 0;
  }

  /** A product vanishes modulo a prime only if a factor does. */
  lemma PrimeDividesProduct(x: int, y: int, p: nat)
    requires IsPrime(p)
    ensures Cong(x * y, 0, p) <==> Cong(x, 0, p) || Cong(y, 0, p)
  {
    hide Cong;
    CongRefl(x, p);
    CongRefl(y, p);
    if Cong(x, 0, p) {
      CongMul(x, 0, y, y, p);
    }
    if Cong(y, 0, p) {
      CongMul(x, x, y, 0, p);
    }
    if Cong(x * y, 0, p) && !Cong(x, 0, p) {
      CongMod(x, p);
      var a := x % p;
      var t := Inverse(a, p);
      CancelLeft(x, a, y, t, p);
    }
  }

  lemma CancelLeft(x: int, a: int, y: int, t: int, p: nat)
    requires p > 0 && Cong(x, a, p) && Cong(a * t, 1, p) && Cong(x * y, 0, p)
    ensures Cong(y, 0, p)
  {
    hide Cong;
    CongRefl(t, p);
    CongRefl(y, p);
    CongMul(x, a, t, t, p);
    CongTrans(x * t, a * t, 1, p);
    CongMul(x * t, 1, y, y, p);
    assert (x * t) * y == (x * y) * t;
    CongMul(x * y, 0, t, t, p);
    CongSym((x * t) * y, 1 * y, p);
    CongTrans(y, (x * y) * t, 0, p);
  }

  function Pow(b: nat, e: nat): nat {
    if e == 0 then 1 else b * Pow(b, e - 1)
  }
}
