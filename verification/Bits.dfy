/** Bytes, their bits, and bit-level facts about the X.25 checksum step. */
module Bits {

  newtype Byte = n: int | 0 <= n < 256

  type Bytes = seq<Byte>

  // ---------------------------------------------------------------- a byte and its bits

  function Bit(b: bool, weight: bv16): bv16 { if b then weight else 0 }

  function Pack(b0: bool, b1: bool, b2: bool, b3: bool, b4: bool, b5: bool, b6: bool, b7: bool): bv16 {
    Bit(b0, 1) | Bit(b1, 2) | Bit(b2, 4) | Bit(b3, 8) | Bit(b4, 16) | Bit(b5, 32) | Bit(b6, 64) | Bit(b7, 128)
  }

  function Odd(n: int): bool { n % 2 == 1 }

  /** The binary representation of a byte. */
  function ToBits(b: Byte): bv16 {
    var n0 := b as int;
    var n1 := n0 / 2; var n2 := n1 / 2; var n3 := n2 / 2; var n4 := n3 / 2;
    var n5 := n4 / 2; var n6 := n5 / 2; var n7 := n6 / 2;
    Pack(Odd(n0), Odd(n1), Odd(n2), Odd(n3), Odd(n4), Odd(n5), Odd(n6), Odd(n7))
  }

  function Digit(v: bv16, mask: bv16): int { if v & mask != 0 then 1 else 0 }

  /** The number whose binary representation is the low byte of `v`. */
  function FromBits(v: bv16): Byte {
    (Digit(v, 1) + 2 * (Digit(v, 2) + 2 * (Digit(v, 4) + 2 * (Digit(v, 8)
     + 2 * (Digit(v, 16) + 2 * (Digit(v, 32) + 2 * (Digit(v, 64) + 2 * Digit(v, 128)))))))) as Byte
  }

  lemma Unpack(b0: bool, b1: bool, b2: bool, b3: bool, b4: bool, b5: bool, b6: bool, b7: bool)
    ensures var v := Pack(b0, b1, b2, b3, b4, b5, b6, b7);
            && Digit(v, 1) == Unit(b0) && Digit(v, 2) == Unit(b1) && Digit(v, 4) == Unit(b2) && Digit(v, 8) == Unit(b3)
            && Digit(v, 16) == Unit(b4) && Digit(v, 32) == Unit(b5) && Digit(v, 64) == Unit(b6)
            && Digit(v, 128) == Unit(b7)
  {
  }

  lemma Repack(v: bv16)
    requires Hi(v) == 0
    ensures Pack(v & 1 != 0, v & 2 != 0, v & 4 != 0, v & 8 != 0, v & 16 != 0, v & 32 != 0, v & 64 != 0, v & 128 != 0)
            == v
  {
  }

  function Unit(b: bool): int { if b then 1 else 0 }

  lemma Halve(n: int)
    ensures n == Unit(Odd(n)) + 2 * (n / 2)
  {
  }

  lemma Double(b: bool, m: int)
    ensures Odd(Unit(b) + 2 * m) == b && (Unit(b) + 2 * m) / 2 == m
  {
  }

  lemma NibbleDigits(n: int)
    requires 0 <= n < 16
    ensures n == Unit(Odd(n)) + 2 * (Unit(Odd(n / 2)) + 2 * (Unit(Odd(n / 2 / 2)) + 2 * Unit(Odd(n / 2 / 2 / 2))))
  {
    Halve(n); Halve(n / 2); Halve(n / 2 / 2); Halve(n / 2 / 2 / 2);
    hide Odd, Unit;
  }

  lemma NibbleSplit(n: int)
    requires 0 <= n < 256
    ensures n == Unit(Odd(n)) + 2 * (Unit(Odd(n / 2)) + 2 * (Unit(Odd(n / 2 / 2))
            + 2 * (Unit(Odd(n / 2 / 2 / 2)) + 2 * (n / 2 / 2 / 2 / 2))))
    ensures 0 <= n / 2 / 2 / 2 / 2 < 16
  {
    Halve(n); Halve(n / 2); Halve(n / 2 / 2); Halve(n / 2 / 2 / 2);
    hide Odd, Unit;
  }

  lemma DigitsOfByte(b: Byte)
    ensures var n := b as int; var m := n / 2 / 2 / 2 / 2; var v := ToBits(b);
            && Digit(v, 1) == Unit(Odd(n)) && Digit(v, 2) == Unit(Odd(n / 2))
            && Digit(v, 4) == Unit(Odd(n / 2 / 2)) && Digit(v, 8) == Unit(Odd(n / 2 / 2 / 2))
            && Digit(v, 16) == Unit(Odd(m)) && Digit(v, 32) == Unit(Odd(m / 2))
            && Digit(v, 64) == Unit(Odd(m / 2 / 2)) && Digit(v, 128) == Unit(Odd(m / 2 / 2 / 2))
  {
    var n := b as int;
    var m := n / 2 / 2 / 2 / 2;
    Unpack(Odd(n), Odd(n / 2), Odd(n / 2 / 2), Odd(n / 2 / 2 / 2), Odd(m), Odd(m / 2), Odd(m / 2 / 2),
           Odd(m / 2 / 2 / 2));
    hide Pack, Odd, Digit, Unit;
  }

  lemma BitsOfByte(b: Byte)
    ensures FromBits(ToBits(b)) == b
  {
    DigitsOfByte(b);
    NibbleSplit(b as int);
    NibbleDigits(b as int / 2 / 2 / 2 / 2);
    hide ToBits, Odd, Digit, Unit;
  }

  lemma ByteOfBits(v: bv16)
    requires Hi(v) == 0
    ensures ToBits(FromBits(v)) == v
  {
    Repack(v);
    var n7 := Digit(v, 128);
    var n6 := Digit(v, 64) + 2 * n7;
    var n5 := Digit(v, 32) + 2 * n6;
    var n4 := Digit(v, 16) + 2 * n5;
    var n3 := Digit(v, 8) + 2 * n4;
    var n2 := Digit(v, 4) + 2 * n3;
    var n1 := Digit(v, 2) + 2 * n2;
    var n0 := Digit(v, 1) + 2 * n1;
    assert FromBits(v) as int == n0;
    Double(v & 128 != 0, 0);
    Double(v & 64 != 0, n7);
    Double(v & 32 != 0, n6);
    Double(v & 16 != 0, n5);
    Double(v & 8 != 0, n4);
    Double(v & 4 != 0, n3);
    Double(v & 2 != 0, n2);
    Double(v & 1 != 0, n1);
    hide Pack, Odd, Unit;
  }

  // ---------------------------------------------------------------- checksum step

  function Lo(c: bv16): bv16 { c & 0xff }

  function Hi(c: bv16): bv16 { c >> 8 }

  function Xor(a: bv16, b: bv16): bv16 { a ^ b }

  function Mix(t: bv16): bv16 { t ^ ((t << 4) & 0xff) }

  function Spread(t: bv16): bv16 { (t << 8) ^ (t << 3) ^ (t >> 4) }

  function Unspread(h: bv16): bv16 { h ^ (h >> 5) }

  /** One step of the X.25 checksum with the byte whose bits are `b`. */
  function Accumulate(crc: bv16, b: bv16): bv16 { Xor(Hi(crc), Spread(Mix(Xor(b, Lo(crc))))) }

  lemma MixIsInvolution(t: bv16)
    requires Hi(t) == 0
    ensures Hi(Mix(t)) == 0 && Mix(Mix(t)) == t
  {
  }

  lemma SpreadIsInjective(s: bv16)
    requires Hi(s) == 0
    ensures Unspread(Hi(Spread(s))) == s
  {
  }

  lemma HighByte(c: bv16, s: bv16)
    ensures Hi(Xor(Hi(c), s)) == Hi(s) && Xor(Xor(Hi(c), s), s) == Hi(c)
  {
  }

  lemma XorCancels(a: bv16, b: bv16)
    ensures Xor(a, Xor(a, b)) == b && Xor(Xor(a, b), b) == a
  {
  }

  lemma SmallXor(c: bv16, b: bv16)
    requires Hi(b) == 0
    ensures Hi(Xor(b, Lo(c))) == 0
  {
  }

  lemma Halves(c: bv16, d: bv16)
    requires Hi(c) == Hi(d) && Lo(c) == Lo(d)
    ensures c == d
  {
  }

  /** Equal results come from equal high bytes and from equal mixtures of the byte with the low byte. */
  lemma StepDetermines(c: bv16, a: bv16, d: bv16, b: bv16)
    requires Hi(a) == 0 && Hi(b) == 0 && Accumulate(c, a) == Accumulate(d, b)
    ensures Hi(c) == Hi(d) && Xor(a, Lo(c)) == Xor(b, Lo(d))
  {
    var s, t := Xor(a, Lo(c)), Xor(b, Lo(d));
    SmallXor(c, a);
    SmallXor(d, b);
    HighByte(c, Spread(Mix(s)));
    HighByte(d, Spread(Mix(t)));
    MixIsInvolution(s);
    MixIsInvolution(t);
    SpreadIsInjective(Mix(s));
    SpreadIsInjective(Mix(t));
    hide Mix, Spread, Unspread, Lo, Hi, Xor;
  }

  lemma StepInjectiveInCrc(c: bv16, d: bv16, b: bv16)
    requires Hi(b) == 0 && c != d
    ensures Accumulate(c, b) != Accumulate(d, b)
  {
    hide Accumulate, Lo, Hi, Xor;
    if Accumulate(c, b) == Accumulate(d, b) {
      StepDetermines(c, b, d, b);
      XorCancels(b, Lo(c));
      XorCancels(b, Lo(d));
      Halves(c, d);
    }
  }

  lemma StepInjectiveInByte(c: bv16, a: bv16, b: bv16)
    requires Hi(a) == 0 && Hi(b) == 0 && a != b
    ensures Accumulate(c, a) != Accumulate(c, b)
  {
    hide Accumulate, Lo, Hi, Xor;
    if Accumulate(c, a) == Accumulate(c, b) {
      StepDetermines(c, a, c, b);
      XorCancels(a, Lo(c));
      XorCancels(b, Lo(c));
    }
  }

  /** A little-endian pair of bytes. */
  function Join(low: bv16, high: bv16): bv16 { low | (high << 8) }

  lemma JoinHalves(c: bv16)
    ensures Join(Lo(c), Hi(c)) == c && Hi(Lo(c)) == 0 && Hi(Hi(c)) == 0
  {
  }

  lemma JoinInjective(a: bv16, b: bv16, c: bv16, d: bv16)
    requires Hi(a) == 0 && Hi(b) == 0 && Hi(c) == 0 && Hi(d) == 0 && Join(a, b) == Join(c, d)
    ensures a == c && b == d
  {
  }

  lemma ToBitsSmall(b: Byte)
    ensures Hi(ToBits(b)) == 0
  {
  }
}
