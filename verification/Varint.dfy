/** Sparkplug varints under JavaScript's 32-bit shifts (office/src/sparkplug-protocol.ts, lines 53-69 and 169-189). */
module Varints {
  import opened Bits

  const U32: int := 0x1_0000_0000
  const INT32_LIMIT: int := 0x8000_0000

  function Pow2(k: nat): (p: nat)
    ensures p >= 1
  {
    if k == 0 then 1 else 2 * Pow2(k - 1)
  }

  /** Bitwise or of two bit patterns. */
  function Or(a: nat, b: nat): nat
    decreases a + b
  {
    if a == 0 then b else if b == 0 then a
    else 2 * Or(a / 2, b / 2) + if a % 2 == 1 || b % 2 == 1 then 1 else 0
  }

  /** `<<` on 32-bit patterns: the shift count is taken modulo 32. */
  function ShiftLeft(x: nat, k: nat): nat { (x * Pow2(k % 32)) % U32 }

  /** A 32-bit pattern read as a signed number. */
  function Signed(bits: int): int { if bits >= INT32_LIMIT then bits - U32 else bits }

  /** The number a value becomes when JavaScript's bit operators take it. */
  function ToInt32(v: int): int { Signed(v % U32) }

  /** The base-128 digits of `n`, least significant first, all but the last marked. */
  function Varint(n: nat): (r: Bytes)
    ensures |r| >= 1
  {
    if n < 128 then [n as Byte] else [(n % 128 + 128) as Byte] + Varint(n / 128)
  }

  datatype VarintResult = Got(value: int, next: nat) | BadVarint

  /** Reading goes on at `offset` with the bits collected so far. */
  function ReadFrom(bytes: Bytes, offset: nat, bits: nat, shift: nat): (r: VarintResult)
    ensures r.Got? ==> offset < r.next <= |bytes|
    decreases |bytes| - offset
  {
    if offset >= |bytes| then BadVarint
    else
      var b := bytes[offset] as int;
      var more := Or(bits, ShiftLeft(b % 128, shift));
      if b < 128 then Got(Signed(more), offset + 1)
      else if shift + 7 > 63 then BadVarint
      else ReadFrom(bytes, offset + 1, more, shift + 7)
  }

  function ReadVarint(bytes: Bytes, start: nat): (r: VarintResult)
    ensures r.Got? ==> start < r.next <= |bytes|
  {
    ReadFrom(bytes, start, 0, 0)
  }

  method ReadVarintLoop(bytes: Bytes, start: nat) returns (r: VarintResult)
    ensures r == ReadVarint(bytes, start)
  {
    var bits, shift, offset := 0, 0, start;
    while offset < |bytes|
      invariant start <= offset && ReadVarint(bytes, start) == ReadFrom(bytes, offset, bits, shift)
      decreases |bytes| - offset
    {
      var b := bytes[offset] as int;
      offset := offset + 1;
      bits := Or(bits, ShiftLeft(b % 128, shift));
      if b < 128 { return Got(Signed(bits), offset); }
      shift := shift + 7;
      if shift > 63 { return BadVarint; }
    }
    return BadVarint;
  }

  // ---------------------------------------------------------------- reading back

  lemma {:induction false} OrDisjoint(a: nat, b: nat, k: nat)
    requires a < Pow2(k)
    ensures Or(a, b * Pow2(k)) == a + b * Pow2(k)
  {
    if k > 0 && a > 0 && b > 0 {
      var half := b * Pow2(k - 1);
      Doubled(b, k);
      OrDisjoint(a / 2, b, k - 1);
      assert (2 * half) / 2 == half && (2 * half) % 2 == 0;
      assert half >= 1 by { Positive(b, Pow2(k - 1)); }
      assert Or(a, 2 * half) == 2 * Or(a / 2, half) + a % 2;
    }
  }

  lemma Positive(b: nat, p: nat)
    requires b > 0 && p > 0
    ensures b * p >= 1
  {
  }

  lemma Doubled(b: nat, k: nat)
    requires k > 0
    ensures b * Pow2(k) == 2 * (b * Pow2(k - 1))
  {
  }

  lemma Pow2Seven(k: nat)
    ensures Pow2(k + 7) == 128 * Pow2(k)
  {
    assert Pow2(k + 7) == 2 * Pow2(k + 6) == 4 * Pow2(k + 5) == 8 * Pow2(k + 4);
    assert Pow2(k + 4) == 2 * Pow2(k + 3) == 4 * Pow2(k + 2) == 8 * Pow2(k + 1);
  }

  lemma {:induction false} Pow2Splits(k: nat)
    requires k <= 32
    ensures Pow2(k) * Pow2(32 - k) == U32
    decreases k
  {
    if k == 0 { Pow2Is32(); }
    else {
      Pow2Splits(k - 1);
      assert Pow2(k) == 2 * Pow2(k - 1) && Pow2(33 - k) == 2 * Pow2(32 - k);
      assert 2 * Pow2(k - 1) * Pow2(32 - k) == Pow2(k - 1) * (2 * Pow2(32 - k));
    }
  }

  lemma Pow2Is32()
    ensures Pow2(32) == U32
  {
    Pow2Seven(0); Pow2Seven(7); Pow2Seven(14); Pow2Seven(21);
    assert Pow2(32) == 2 * Pow2(31) == 4 * Pow2(30) == 8 * Pow2(29) == 16 * Pow2(28);
  }

  lemma BelowU32(x: nat)
    requires x < U32
    ensures x % U32 == x
  {
  }

  /** One digit: or-ing it in above the bits collected so far adds it, and what leaves the 32 bits is lost. */
  lemma DigitJoins(bits: nat, digit: nat, shift: nat)
    requires shift < 32 && bits < Pow2(shift)
    ensures Or(bits, (digit * Pow2(shift)) % U32) == (bits + digit * Pow2(shift)) % U32
  {
    var p, q := Pow2(shift), Pow2(32 - shift);
    Pow2Splits(shift);
    CutDigit(bits, digit, p, q);
    OrDisjoint(bits, digit % q, shift);
    hide Or, Pow2;
  }

  /** With p * q the modulus, the bits below p stay and the digit keeps its part below q. */
  lemma CutDigit(bits: nat, digit: nat, p: nat, q: nat)
    requires bits < p && p * q == U32 && q > 0
    ensures (digit * p) % U32 == digit % q * p
    ensures (bits + digit * p) % U32 == bits + digit % q * p
  {
    var rest, high := digit % q, digit / q;
    assert digit == rest + high * q;
    Distribute(rest, high * q, p);
    assert high * q * p == high * U32;
    Below(rest, q, p);
    Remainder(rest * p, high);
    Remainder(bits + rest * p, high);
  }

  lemma Below(rest: nat, q: nat, p: nat)
    requires rest < q
    ensures rest * p + p <= p * q
  {
    assert (rest + 1) * p <= q * p;
  }

  lemma Remainder(x: nat, times: nat)
    requires x < U32
    ensures (x + times * U32) % U32 == x
  {
  }

  lemma Distribute(a: int, b: int, p: int)
    ensures (a + b) * p == a * p + b * p
  {
  }

  predicate At(bytes: Bytes, offset: nat, piece: Bytes) {
    offset + |piece| <= |bytes| && bytes[offset..offset + |piece|] == piece
  }

  lemma AtJoin(bytes: Bytes, offset: nat, a: Bytes, b: Bytes)
    requires At(bytes, offset, a + b)
    ensures At(bytes, offset, a) && At(bytes, offset + |a|, b)
  {
    var ab := bytes[offset..offset + |a + b|];
    assert bytes[offset..offset + |a|] == ab[..|a|];
    assert bytes[offset + |a|..offset + |a| + |b|] == ab[|a|..];
  }

  // ---------------------------------------------------------------- what a varint is, and what is read

  /** The bytes of one varint: every byte but the last is marked. */
  predicate IsVarint(s: Bytes) {
    |s| >= 1 && s[|s| - 1] < 128 && forall i :: 0 <= i < |s| - 1 ==> s[i] >= 128
  }

  /** The number its base-128 digits stand for. */
  function Number(s: Bytes): nat { if s == [] then 0 else s[0] as int % 128 + 128 * Number(s[1..]) }

  const MAX_DIGITS := 10
  const FIVE_DIGITS: int := 0x8_0000_0000

  /** The digits behind the fifth, which a shift count taken modulo 32 sets down again from bit 3 on. */
  function Wrapped(n: nat): nat { n / FIVE_DIGITS * 8 % U32 }

  /** What the reader makes of the number n. */
  function ReadAs(n: nat): int { Signed(Or(n % U32, Wrapped(n))) }

  /** The bits the reader collects from the digits of s, the first of them shifted by `shift`. */
  function Collected(s: Bytes, bits: nat, shift: nat): nat {
    if s == [] then bits else Collected(s[1..], Or(bits, ShiftLeft(s[0] as int % 128, shift)), shift + 7)
  }

  /** The reader collects the digits of a varint and stops right behind it, unless it is too long. */
  lemma {:induction false} ReaderCollects(bytes: Bytes, offset: nat, bits: nat, shift: nat, s: Bytes)
    requires IsVarint(s) && At(bytes, offset, s) && shift <= 63
    ensures ReadFrom(bytes, offset, bits, shift)
            == if shift + 7 * (|s| - 1) <= 63 then Got(Signed(Collected(s, bits, shift)), offset + |s|) else BadVarint
    decreases |s|
  {
    hide Or, ShiftLeft, Signed;
    assert bytes[offset] == s[0] by { assert bytes[offset] == bytes[offset..offset + |s|][0]; }
    if |s| == 1 {
      assert s[1..] == [];
    } else {
      assert s == [s[0]] + s[1..];
      AtJoin(bytes, offset, [s[0]], s[1..]);
      if shift + 7 <= 63 {
        ReaderCollects(bytes, offset + 1, Or(bits, ShiftLeft(s[0] as int % 128, shift)), shift + 7, s[1..]);
      }
    }
  }

  /** Digits that are set down one above the other, from bit `place` on, add up. */
  lemma {:induction false} DigitsAdd(s: Bytes, bits: nat, shift: nat, place: nat)
    requires s != [] && place == shift % 32 && place + 7 * (|s| - 1) < 32 && bits < Pow2(place)
    ensures Collected(s, bits, shift) == (bits + Number(s) * Pow2(place)) % U32
    decreases |s|
  {
    hide Or, Pow2, ShiftLeft;
    var digit := s[0] as int % 128;
    FirstDigit(bits, digit, shift, place);
    if |s| == 1 {
      assert s[1..] == [];
      assert Number(s) == digit;
    } else {
      var sum := bits + digit * Pow2(place);
      DigitStays(bits, digit, place);
      DigitsAdd(s[1..], sum, shift + 7, place + 7);
      RestAdds(bits, digit, Number(s[1..]), place);
    }
  }

  lemma FirstDigit(bits: nat, digit: nat, shift: nat, place: nat)
    requires place == shift % 32 && bits < Pow2(place)
    ensures Or(bits, ShiftLeft(digit, shift)) == (bits + digit * Pow2(place)) % U32
  {
    hide Or, Pow2;
    DigitJoins(bits, digit, place);
  }

  /** A digit that another one follows loses nothing. */
  lemma DigitStays(bits: nat, digit: nat, place: nat)
    requires place + 7 < 32 && bits < Pow2(place) && digit < 128
    ensures var sum := bits + digit * Pow2(place); sum < Pow2(place + 7) && sum % U32 == sum
  {
    hide Pow2;
    Pow2Seven(place);
    NextBelow(bits, digit, Pow2(place));
    FitsBelow(place + 7);
  }

  lemma RestAdds(bits: nat, digit: nat, rest: nat, place: nat)
    ensures bits + digit * Pow2(place) + rest * Pow2(place + 7) == bits + (digit + 128 * rest) * Pow2(place)
  {
    hide Pow2;
    Pow2Seven(place);
    Regroup(digit, rest, Pow2(place));
  }

  lemma NextBelow(bits: nat, digit: nat, p: nat)
    requires bits < p && digit < 128
    ensures bits + digit * p < 128 * p
  {
    assert digit * p <= 127 * p;
  }

  lemma FitsBelow(k: nat)
    requires k <= 32
    ensures Pow2(k) <= U32
  {
    Pow2Splits(k);
    assert Pow2(k) * 1 <= Pow2(k) * Pow2(32 - k);
  }

  lemma Regroup(digit: nat, rest: nat, p: nat)
    ensures digit * p + rest * (128 * p) == (digit + 128 * rest) * p
  {
    Distribute(digit, 128 * rest, p);
  }

  lemma {:induction false} OrAssociates(a: nat, b: nat, c: nat)
    ensures Or(Or(a, b), c) == Or(a, Or(b, c))
    decreases a + b + c
  {
    if a > 0 && b > 0 && c > 0 {
      OrAssociates(a / 2, b / 2, c / 2);
      OrHalves(a, b);
      OrHalves(b, c);
    }
  }

  lemma OrHalves(a: nat, b: nat)
    requires a > 0 && b > 0
    ensures Or(a, b) > 0 && Or(a, b) / 2 == Or(a / 2, b / 2) && (Or(a, b) % 2 == 1 <==> a % 2 == 1 || b % 2 == 1)
  {
    OrGrows(a, b);
  }

  lemma {:induction false} OrGrows(a: nat, b: nat)
    ensures Or(a, b) >= a && Or(a, b) >= b
    decreases a + b
  {
    if a > 0 && b > 0 { OrGrows(a / 2, b / 2); }
  }

  /** Bits collected before are simply or-ed to what the digits give on their own. */
  lemma {:induction false} CollectedSplits(s: Bytes, bits: nat, shift: nat)
    ensures Collected(s, bits, shift) == Or(bits, Collected(s, 0, shift))
    decreases |s|
  {
    hide ShiftLeft;
    if s != [] {
      var x := ShiftLeft(s[0] as int % 128, shift);
      CollectedSplits(s[1..], Or(bits, x), shift + 7);
      CollectedSplits(s[1..], Or(0, x), shift + 7);
      OrAssociates(bits, x, Collected(s[1..], 0, shift + 7));
    }
  }

  lemma {:induction false} CollectedJoin(a: Bytes, b: Bytes, bits: nat, shift: nat)
    ensures Collected(a + b, bits, shift) == Collected(b, Collected(a, bits, shift), shift + 7 * |a|)
    decreases |a|
  {
    hide Or, ShiftLeft;
    if a == [] {
      assert a + b == b;
    } else {
      assert (a + b)[1..] == a[1..] + b;
      CollectedJoin(a[1..], b, Or(bits, ShiftLeft(a[0] as int % 128, shift)), shift + 7);
    }
  }

  lemma {:induction false} NumberBelow(s: Bytes)
    ensures Number(s) < Pow2(7 * |s|)
    decreases |s|
  {
    hide Pow2;
    if s == [] {
      PowZero();
    } else {
      NumberBelow(s[1..]);
      Pow2Seven(7 * |s[1..]|);
    }
  }

  lemma PowZero()
    ensures Pow2(0) == 1
  {
  }

  lemma {:induction false} NumberJoins(a: Bytes, b: Bytes)
    ensures Number(a + b) == Number(a) + Pow2(7 * |a|) * Number(b)
    decreases |a|
  {
    hide Pow2;
    if a == [] {
      PowZero();
      assert a + b == b;
    } else {
      assert (a + b)[1..] == a[1..] + b;
      NumberJoins(a[1..], b);
      Pow2Seven(7 * |a[1..]|);
      var p, n := Pow2(7 * |a[1..]|), Number(b);
      assert 128 * (p * n) == 128 * p * n;
    }
  }

  lemma PowFive()
    ensures Pow2(35) == FIVE_DIGITS && Pow2(3) == 8
  {
    Pow2Is32();
    assert Pow2(35) == 2 * Pow2(34) == 4 * Pow2(33) == 8 * Pow2(32);
  }

  /** At most five digits: the number itself, cut to 32 bits. */
  lemma ShortCollected(s: Bytes)
    requires 1 <= |s| <= 5
    ensures Collected(s, 0, 0) == Number(s) % U32 && Wrapped(Number(s)) == 0
  {
    hide Collected;
    PowZero();
    DigitsAdd(s, 0, 0, 0);
    NumberBelow(s);
    PowFive();
    PowMonotone(7 * |s|, 35);
  }

  lemma {:induction false} PowMonotone(k: nat, m: nat)
    requires k <= m
    ensures Pow2(k) <= Pow2(m)
    decreases m - k
  {
    if k < m { PowMonotone(k + 1, m); }
  }

  /** Six to ten digits: the first five give the number cut to 32 bits, the others are or-ed in again from bit 3 on. */
  lemma LongCollected(s: Bytes)
    requires 6 <= |s| <= MAX_DIGITS
    ensures Collected(s, 0, 0) == Or(Number(s) % U32, Wrapped(Number(s)))
  {
    hide Or, Collected;
    var low, high := s[..5], s[5..];
    assert s == low + high;
    CollectedJoin(low, high, 0, 0);
    CollectedSplits(high, Collected(low, 0, 0), 35);
    ShortCollected(low);
    NumberJoins(low, high);
    NumberBelow(low);
    PowFive();
    DigitsAdd(high, 0, 35, 3);
    hide Pow2;
    SplitNumber(Number(low), Number(high));
  }

  lemma SplitNumber(low: nat, high: nat)
    requires low < FIVE_DIGITS
    ensures (low + FIVE_DIGITS * high) % U32 == low % U32 && Wrapped(low + FIVE_DIGITS * high) == high * 8 % U32
  {
    assert low + FIVE_DIGITS * high == low + 8 * high * U32;
    assert (low + FIVE_DIGITS * high) / FIVE_DIGITS == high;
  }

  /**
   * Every varint in front of a reader: up to ten bytes it is read, as the number with its wrapped digits or-ed in, and
   * the reader stops right behind it; a longer one is refused.
   */
  lemma ReadsVarint(bytes: Bytes, offset: nat, s: Bytes)
    requires IsVarint(s) && At(bytes, offset, s)
    ensures ReadVarint(bytes, offset) == if |s| <= MAX_DIGITS then Got(ReadAs(Number(s)), offset + |s|) else BadVarint
  {
    ReaderCollects(bytes, offset, 0, 0, s);
    hide Or, Collected, ReadFrom;
    if |s| <= 5 { ShortCollected(s); OrZero(Number(s) % U32); }
    else if |s| <= MAX_DIGITS { LongCollected(s); }
  }

  lemma OrZero(a: nat)
    ensures Or(a, 0) == a
  {
  }

  /** A read succeeds exactly when a varint of at most ten bytes stands there. */
  lemma ReadsOnlyVarints(bytes: Bytes, offset: nat)
    ensures ReadVarint(bytes, offset).Got? <==> exists s :: IsVarint(s) && |s| <= MAX_DIGITS && At(bytes, offset, s)
  {
    if exists s :: IsVarint(s) && |s| <= MAX_DIGITS && At(bytes, offset, s) {
      var s :| IsVarint(s) && |s| <= MAX_DIGITS && At(bytes, offset, s);
      ReadsVarint(bytes, offset, s);
    }
    if ReadVarint(bytes, offset).Got? { var s := FoundVarint(bytes, offset, 0, 0); }
  }

  lemma {:induction false} FoundVarint(bytes: Bytes, offset: nat, bits: nat, shift: nat) returns (s: Bytes)
    requires ReadFrom(bytes, offset, bits, shift).Got? && shift <= 63
    ensures IsVarint(s) && shift + 7 * (|s| - 1) <= 63 && At(bytes, offset, s)
    decreases |bytes| - offset
  {
    hide Or, ShiftLeft;
    if bytes[offset] < 128 {
      s := [bytes[offset]];
    } else {
      var rest := FoundVarint(bytes, offset + 1, Or(bits, ShiftLeft(bytes[offset] as int % 128, shift)), shift + 7);
      s := [bytes[offset]] + rest;
      assert bytes[offset..offset + |s|] == [bytes[offset]] + bytes[offset + 1..offset + 1 + |rest|];
      assert forall i :: 1 <= i < |s| ==> s[i] == rest[i - 1];
    }
  }

  // ---------------------------------------------------------------- when the value is the 32-bit reduction

  /** The written form of a number is a varint of that number. */
  lemma {:induction false} VarintIsVarint(n: nat)
    ensures IsVarint(Varint(n)) && Number(Varint(n)) == n
  {
    var s := Varint(n);
    if n < 128 {
      assert s[1..] == [];
    } else {
      var first, rest := (n % 128 + 128) as Byte, Varint(n / 128);
      VarintIsVarint(n / 128);
      assert s == [first] + rest;
      hide Varint;
      Prepended(first, rest);
    }
  }

  lemma Prepended(first: Byte, rest: Bytes)
    requires first >= 128 && IsVarint(rest)
    ensures IsVarint([first] + rest) && Number([first] + rest) == first as int - 128 + 128 * Number(rest)
  {
    var s := [first] + rest;
    assert s[1..] == rest;
    assert forall i :: 1 <= i < |s| ==> s[i] == rest[i - 1];
  }

  /** Below 2^35, where no digit wraps, a number is read as its signed 32-bit reduction. */
  lemma NothingWraps(n: nat)
    requires n < FIVE_DIGITS
    ensures ReadAs(n) == ToInt32(n)
  {
    OrZero(n % U32);
  }

  predicate Bit(n: nat, k: nat) { n / Pow2(k) % 2 == 1 }

  /** Every bit of b is a bit of a. */
  ghost predicate Within(b: nat, a: nat) { forall k: nat :: Bit(b, k) ==> Bit(a, k) }

  /** Halving drops the lowest bit. */
  lemma HalvedBits(n: nat, k: nat)
    ensures Bit(n / 2, k) == Bit(n, k + 1) && (Bit(n, 0) <==> n % 2 == 1)
  {
    var p := Pow2(k);
    assert Pow2(k + 1) == 2 * p && Pow2(0) == 1;
    DividedTwice(n, p);
  }

  lemma DividedTwice(n: nat, p: nat)
    requires p > 0
    ensures n / 2 / p == n / (2 * p)
  {
    var q, r := n / 2 / p, n / 2 % p;
    assert n / 2 == q * p + r;
    var rest := 2 * r + n % 2;
    assert n == q * (2 * p) + rest by { assert 2 * (q * p) == q * (2 * p); }
    Quotient(n, 2 * p, q, rest);
  }

  lemma Quotient(n: nat, d: nat, q: nat, r: nat)
    requires d > 0 && n == q * d + r && r < d
    ensures n / d == q
  {
    var m := n / d;
    assert n == m * d + n % d;
    Distribute(m, 1, d);
    Distribute(q, 1, d);
    Ordered(m, q, d);
    Ordered(q, m, d);
  }

  lemma Ordered(a: nat, b: nat, d: nat)
    ensures a * d < (b + 1) * d ==> a <= b
  {
    if a > b { Below(b, a, d); }
  }

  lemma HalvedWithin(b: nat, a: nat)
    ensures Within(b, a) <==> Within(b / 2, a / 2) && (b % 2 == 1 ==> a % 2 == 1)
  {
    hide Bit;
    forall k: nat ensures Bit(b / 2, k) == Bit(b, k + 1) && Bit(a / 2, k) == Bit(a, k + 1) {
      HalvedBits(b, k);
      HalvedBits(a, k);
    }
    HalvedBits(b, 0);
    HalvedBits(a, 0);
    if Within(b / 2, a / 2) && (b % 2 == 1 ==> a % 2 == 1) {
      forall k: nat | Bit(b, k) ensures Bit(a, k) {
        if k > 0 { assert Bit(b / 2, k - 1) == Bit(b, (k - 1) + 1) && Bit(a / 2, k - 1) == Bit(a, (k - 1) + 1); }
      }
    }
  }

  /** Or-ing b into a changes nothing exactly when b has no bit that a leaves clear. */
  lemma {:induction false} OrAbsorbs(a: nat, b: nat)
    ensures Or(a, b) == a <==> Within(b, a)
    decreases a + b
  {
    if b == 0 {
      forall k: nat ensures !Bit(b, k) { ZeroHasNoBits(k); }
    } else if a == 0 {
      forall k: nat ensures !Bit(a, k) { ZeroHasNoBits(k); }
      var k := SomeBit(b);
    } else {
      OrAbsorbs(a / 2, b / 2);
      HalvedWithin(b, a);
      OrHalves(a, b);
      hide Within, Bit;
    }
  }

  lemma ZeroHasNoBits(k: nat)
    ensures !Bit(0, k)
  {
  }

  lemma {:induction false} SomeBit(n: nat) returns (k: nat)
    requires n > 0
    ensures Bit(n, k)
  {
    if n % 2 == 1 {
      HalvedBits(n, 0);
      k := 0;
    } else {
      var j := SomeBit(n / 2);
      HalvedBits(n, j);
      k := j + 1;
    }
  }

  /**
   * A number is read as its signed 32-bit reduction exactly when its wrapped digits set no bit its low digits leave
   * clear.
   */
  lemma ReducedExactly(n: nat)
    ensures ReadAs(n) == ToInt32(n) <==> Within(Wrapped(n), n % U32)
  {
    hide Or, Within, Wrapped, Pow2, Signed;
    WrappedFits(n);
    OrAbsorbs(n % U32, Wrapped(n));
    Pow2Is32();
    OrFits(n % U32, Wrapped(n), 32);
    SignedInjective(Or(n % U32, Wrapped(n)), n % U32);
  }

  lemma WrappedFits(n: nat)
    ensures Wrapped(n) < U32
  {
  }

  lemma SignedInjective(a: nat, b: nat)
    requires a < U32 && b < U32
    ensures Signed(a) == Signed(b) <==> a == b
  {
  }

  lemma {:induction false} OrFits(a: nat, b: nat, k: nat)
    requires a < Pow2(k) && b < Pow2(k)
    ensures Or(a, b) < Pow2(k)
    decreases k
  {
    if a > 0 && b > 0 { OrFits(a / 2, b / 2, k - 1); }
  }

  /** The first number that is not: 2^35 is six bytes long, reduces to 0 and is read as 8. */
  lemma WrapsAt35()
    ensures Varint(FIVE_DIGITS) == [128, 128, 128, 128, 128, 1]
    ensures ReadVarint(Varint(FIVE_DIGITS), 0) == Got(8, 6) && ToInt32(FIVE_DIGITS) == 0
  {
    var s := Varint(FIVE_DIGITS);
    assert Varint(1) == [1] && Varint(128) == [128, 1] && Varint(128 * 128) == [128, 128, 1];
    assert Varint(0x20_0000) == [128] + Varint(128 * 128) && Varint(0x1000_0000) == [128] + Varint(0x20_0000);
    assert s == [128] + Varint(0x1000_0000) == [128, 128, 128, 128, 128, 1];
    VarintIsVarint(FIVE_DIGITS);
    assert s[0..0 + |s|] == s;
    ReadsVarint(s, 0, s);
    assert Wrapped(FIVE_DIGITS) == 8;
  }

  /** What the office's own encoder writes, cut to 32 bits, is read as the signed 32-bit reduction. */
  lemma ReadsEncoded(bytes: Bytes, offset: nat, value: nat)
    requires At(bytes, offset, Varint(value % U32))
    ensures ReadVarint(bytes, offset) == Got(ToInt32(value), offset + |Varint(value % U32)|)
  {
    hide ReadAs, Varint, ReadVarint, Pow2;
    var n := value % U32;
    VarintIsVarint(n);
    ReadsVarint(bytes, offset, Varint(n));
    PowFive();
    DigitCount(n, 5);
    NothingWraps(n);
  }

  /** A number below 128^k has at most k digits. */
  lemma {:induction false} DigitCount(n: nat, k: nat)
    requires n < Pow2(7 * k) && k >= 1
    ensures |Varint(n)| <= k
    decreases k
  {
    hide Pow2;
    if n >= 128 {
      Pow2Seven(7 * (k - 1));
      if k == 1 { PowZero(); }
      DigitCount(n / 128, k - 1);
    }
  }

  lemma Reduces(v: nat)
    ensures ToInt32(v) == v <==> v < INT32_LIMIT
  {
  }

  /** An integer that is encoded and read back comes back unchanged exactly when it is below 2^31. */
  lemma SurvivesExactly(bytes: Bytes, offset: nat, v: nat)
    requires At(bytes, offset, Varint(v % U32))
    ensures ReadVarint(bytes, offset) == Got(v, offset + |Varint(v % U32)|) <==> v < INT32_LIMIT
  {
    ReadsEncoded(bytes, offset, v);
    Reduces(v);
  }
}
