/**
 * The remaining single-byte changes of a MAVLink 2 frame: those that turn one known message id into another. The
 * checksum step is linear over exclusive-or, so the effect of the change is the same for every payload of one length;
 * it never cancels the change of the checksum seed.
 */
module MavlinkIds {
  import opened Common
  import opened Bits
  import opened Mavlink

  /** What a step with any one byte does to the difference of two running checksums. */
  function Shifted(c: bv16): bv16 {
    var t := (c & 0xff) ^ ((c << 4) & 0xff);
    (c >> 8) ^ ((t << 8) ^ (t << 3) ^ (t >> 4))
  }

  function Run(c: bv16, n: nat): bv16 { if n == 0 then c else Shifted(Run(c, n - 1)) }

  lemma LowMixed(c: bv16)
    ensures Mix(Lo(c)) == (c & 0xff) ^ ((c << 4) & 0xff)
  {
    assert ((c & 0xff) << 4) & 0xff == (c << 4) & 0xff;
  }

  lemma ShiftedIsStep(c: bv16)
    ensures Shifted(c) == Xor(Hi(c), Spread(Mix(Lo(c))))
  {
    LowMixed(c);
    hide Mix, Lo;
  }

  lemma XorAssociates(a: bv16, b: bv16, c: bv16)
    ensures Xor(Xor(a, b), c) == Xor(a, Xor(b, c)) && Xor(a, b) == Xor(b, a)
  {
  }

  lemma XorSwaps(a: bv16, b: bv16, c: bv16, d: bv16)
    ensures Xor(Xor(a, b), Xor(c, d)) == Xor(Xor(a, c), Xor(b, d))
  {
    XorAssociates(a, b, Xor(c, d));
    XorAssociates(b, c, d);
    XorAssociates(c, b, d);
    XorAssociates(a, c, Xor(b, d));
    hide Xor;
  }

  lemma MixIsLinear(a: bv16, b: bv16)
    ensures Mix(Xor(a, b)) == Xor(Mix(a), Mix(b))
  {
    assert (a ^ b) ^ (((a ^ b) << 4) & 0xff) == (a ^ ((a << 4) & 0xff)) ^ (b ^ ((b << 4) & 0xff));
  }

  lemma LeftShiftsAreLinear(a: bv16, b: bv16)
    ensures Xor(a, b) << 8 == Xor(a << 8, b << 8)
    ensures Xor(a, b) << 3 == Xor(a << 3, b << 3)
  {
    assert (a ^ b) << 8 == (a << 8) ^ (b << 8);
    assert (a ^ b) << 3 == (a << 3) ^ (b << 3);
  }

  lemma RightShiftIsLinear(a: bv16, b: bv16)
    ensures Xor(a, b) >> 4 == Xor(a >> 4, b >> 4)
  {
    assert (a ^ b) >> 4 == (a >> 4) ^ (b >> 4);
  }

  lemma SpreadIsXor(t: bv16)
    ensures Spread(t) == Xor(Xor(t << 8, t << 3), t >> 4)
  {
  }

  lemma SpreadIsLinear(a: bv16, b: bv16)
    ensures Spread(Xor(a, b)) == Xor(Spread(a), Spread(b))
  {
    SpreadIsXor(a);
    SpreadIsXor(b);
    SpreadIsXor(Xor(a, b));
    LeftShiftsAreLinear(a, b);
    RightShiftIsLinear(a, b);
    XorSwaps(a << 8, b << 8, a << 3, b << 3);
    XorSwaps(Xor(a << 8, a << 3), Xor(b << 8, b << 3), a >> 4, b >> 4);
    hide Spread, Xor;
  }

  lemma HalvesAreLinear(c: bv16, d: bv16, b: bv16)
    ensures Hi(Xor(c, d)) == Xor(Hi(c), Hi(d)) && Xor(Xor(b, Lo(c)), Xor(b, Lo(d))) == Lo(Xor(c, d))
  {
  }

  lemma StepIsLinear(c: bv16, d: bv16, b: bv16)
    ensures Xor(Accumulate(c, b), Accumulate(d, b)) == Shifted(Xor(c, d))
  {
    var p, q := Xor(b, Lo(c)), Xor(b, Lo(d));
    ShiftedIsStep(Xor(c, d));
    HalvesAreLinear(c, d, b);
    MixIsLinear(p, q);
    SpreadIsLinear(Mix(p), Mix(q));
    XorSwaps(Hi(c), Spread(Mix(p)), Hi(d), Spread(Mix(q)));
    hide Shifted, Mix, Spread, Lo, Hi, Xor;
  }

  lemma SmallBytes(c: bv16, a: bv16, b: bv16)
    requires Hi(a) == 0 && Hi(b) == 0
    ensures Hi(Xor(a, b)) == 0 && Lo(Xor(a, b)) == Xor(Xor(a, Lo(c)), Xor(b, Lo(c)))
  {
  }

  lemma Same(a: bv16)
    ensures Xor(a, a) == 0
  {
  }

  lemma ByteIsInjected(c: bv16, a: bv16, b: bv16)
    requires Hi(a) == 0 && Hi(b) == 0
    ensures Xor(Accumulate(c, a), Accumulate(c, b)) == Shifted(Xor(a, b))
  {
    var p, q := Xor(a, Lo(c)), Xor(b, Lo(c));
    ShiftedIsStep(Xor(a, b));
    SmallBytes(c, a, b);
    MixIsLinear(p, q);
    SpreadIsLinear(Mix(p), Mix(q));
    XorSwaps(Hi(c), Spread(Mix(p)), Hi(c), Spread(Mix(q)));
    Same(Hi(c));
    hide Shifted, Mix, Spread, Lo, Hi, Xor;
  }

  /** Over a common suffix the difference depends on the suffix's length alone. */
  lemma {:induction false} DifferenceRuns(c: bv16, d: bv16, bytes: Bytes)
    ensures Xor(Fold(c, bytes), Fold(d, bytes)) == Run(Xor(c, d), |bytes|)
  {
    hide Accumulate, ToBits, Shifted, Xor;
    if bytes != [] {
      var before, last := bytes[..|bytes| - 1], bytes[|bytes| - 1];
      DifferenceRuns(c, d, before);
      StepIsLinear(Fold(c, before), Fold(d, before), ToBits(last));
    }
  }

  lemma MeetingDetermines(c: bv16, a: bv16, d: bv16, b: bv16)
    requires Hi(a) == 0 && Hi(b) == 0 && Accumulate(c, a) == Accumulate(d, b)
    ensures Xor(c, d) == Xor(a, b)
  {
    StepDetermines(c, a, d, b);
    hide Accumulate;
  }

  // ---------------------------------------------------------------- 256 steps, sixteen at a time

  /** Sixteen steps lead from a to z, and none of the values on the way is t. */
  predicate Hop(a: bv16, z: bv16, t: bv16) {
    var b := Shifted(a); var c := Shifted(b); var d := Shifted(c); var e := Shifted(d);
    var f := Shifted(e); var g := Shifted(f); var h := Shifted(g); var i := Shifted(h);
    var j := Shifted(i); var k := Shifted(j); var l := Shifted(k); var m := Shifted(l);
    var n := Shifted(m); var o := Shifted(n); var p := Shifted(o);
    && a != t && b != t && c != t && d != t && e != t && f != t && g != t && h != t
    && i != t && j != t && k != t && l != t && m != t && n != t && o != t && p != t
    && Shifted(p) == z
  }

  /** The first n values of the run from c avoid t. */
  ghost predicate Avoids(c: bv16, t: bv16, n: nat) { forall k :: 0 <= k < n ==> Run(c, k) != t }

  lemma {:induction false} RunAdds(c: bv16, m: nat, n: nat)
    ensures Run(c, m + n) == Run(Run(c, m), n)
  {
    hide Shifted;
    if n > 0 { RunAdds(c, m, n - 1); }
  }

  lemma AvoidsAdds(c: bv16, t: bv16, m: nat, n: nat)
    requires Avoids(c, t, m) && Avoids(Run(c, m), t, n)
    ensures Avoids(c, t, m + n) && Run(c, m + n) == Run(Run(c, m), n)
  {
    hide Run;
    forall k | 0 <= k < m + n ensures Run(c, k) != t {
      if k >= m { RunAdds(c, m, k - m); }
    }
    RunAdds(c, m, n);
  }

  lemma HopAvoids(a: bv16, z: bv16, t: bv16)
    requires Hop(a, z, t)
    ensures Avoids(a, t, 16) && Run(a, 16) == z
  {
    hide Shifted;
    var b := Shifted(a); var c := Shifted(b); var d := Shifted(c); var e := Shifted(d);
    var f := Shifted(e); var g := Shifted(f); var h := Shifted(g); var i := Shifted(h);
    var j := Shifted(i); var k := Shifted(j); var l := Shifted(k); var m := Shifted(l);
    assert Run(a, 1) == b && Run(a, 2) == c && Run(a, 3) == d && Run(a, 4) == e && Run(a, 5) == f && Run(a, 6) == g;
    assert Run(a, 7) == h && Run(a, 8) == i && Run(a, 9) == j && Run(a, 10) == k && Run(a, 11) == l && Run(a, 12) == m;
    assert Run(a, 13) == Shifted(m) && Run(a, 14) == Shifted(Run(a, 13)) && Run(a, 15) == Shifted(Run(a, 14));
  }

  /** Sixty-four steps lead from a to z, and none of the values on the way is t. */
  ghost predicate Leg(a: bv16, z: bv16, t: bv16) { Avoids(a, t, 64) && Run(a, 64) == z }

  lemma FourHops(a: bv16, b: bv16, c: bv16, d: bv16, e: bv16, t: bv16)
    requires Hop(a, b, t) && Hop(b, c, t) && Hop(c, d, t) && Hop(d, e, t)
    ensures Leg(a, e, t)
  {
    hide Hop, Run, Avoids;
    HopAvoids(a, b, t); HopAvoids(b, c, t); HopAvoids(c, d, t); HopAvoids(d, e, t);
    AvoidsAdds(a, t, 16, 16);
    AvoidsAdds(a, t, 32, 16);
    AvoidsAdds(a, t, 48, 16);
  }

  lemma FourLegs(d: bv16, a: bv16, b: bv16, c: bv16, e: bv16, f: bv16, t: bv16, n: nat)
    requires Shifted(Shifted(Shifted(d))) == a && n < 256
    requires Leg(a, b, t) && Leg(b, c, t) && Leg(c, e, t) && Leg(e, f, t)
    ensures Run(Shifted(d), n + 2) != t
  {
    assert Run(Shifted(d), 1) == Shifted(Shifted(d)) && Run(Shifted(d), 2) == a;
    hide Run, Shifted;
    AvoidsAdds(a, t, 64, 64);
    AvoidsAdds(a, t, 128, 64);
    AvoidsAdds(a, t, 192, 64);
    RunAdds(Shifted(d), 2, n);
    assert Run(a, n) != t;
  }

  // ---------------------------------------------------------------- the ten pairs of known ids

  lemma Apart0And11(n: nat)
    requires n < 256
    ensures Run(Shifted(0xb), n + 2) != 0x6b
  {
    hide Leg;
    assert Leg(0x29a6, 0xf6c4, 0x6b) by { FourHops(0x29a6, 0x07c6, 0x7e83, 0x2324, 0xf6c4, 0x6b); }
    assert Leg(0xf6c4, 0xf9f8, 0x6b) by { FourHops(0xf6c4, 0x6962, 0x0601, 0x36fd, 0xf9f8, 0x6b); }
    assert Leg(0xf9f8, 0xdf9c, 0x6b) by { FourHops(0xf9f8, 0x5af8, 0xf02a, 0x440e, 0xdf9c, 0x6b); }
    assert Leg(0xdf9c, 0x9f58, 0x6b) by { FourHops(0xdf9c, 0x5aad, 0x61d2, 0x99ef, 0x9f58, 0x6b); }
    FourLegs(0xb, 0x29a6, 0xf6c4, 0xf9f8, 0xdf9c, 0x9f58, 0x6b, n);
  }

  lemma Apart0And69(n: nat)
    requires n < 256
    ensures Run(Shifted(0x45), n + 2) != 0xc1
  {
    hide Leg;
    assert Leg(0x3fcb, 0x9d0a, 0xc1) by { FourHops(0x3fcb, 0x367a, 0x6fae, 0x745d, 0x9d0a, 0xc1); }
    assert Leg(0x9d0a, 0xf5ae, 0xc1) by { FourHops(0x9d0a, 0xe885, 0x3a0b, 0xe4fe, 0xf5ae, 0xc1); }
    assert Leg(0xf5ae, 0xa433, 0xc1) by { FourHops(0xf5ae, 0x28ea, 0xa148, 0xfc40, 0xa433, 0xc1); }
    assert Leg(0xa433, 0x737d, 0xc1) by { FourHops(0xa433, 0x2abd, 0xb4d5, 0x4d1c, 0x737d, 0xc1); }
    FourLegs(0x45, 0x3fcb, 0x9d0a, 0xf5ae, 0xa433, 0x737d, 0xc1, n);
  }

  lemma Apart0And76(n: nat)
    requires n < 256
    ensures Run(Shifted(0x4c), n + 2) != 0xaa
  {
    hide Leg;
    assert Leg(0xa3d5, 0xce8d, 0xaa) by { FourHops(0xa3d5, 0x1f3f, 0x0b5f, 0x5c01, 0xce8d, 0xaa); }
    assert Leg(0xce8d, 0xf433, 0xaa) by { FourHops(0xce8d, 0x9ffb, 0xae5f, 0x4e3e, 0xf433, 0xaa); }
    assert Leg(0xf433, 0x6b60, 0xaa) by { FourHops(0xf433, 0x13eb, 0x4969, 0x813d, 0x6b60, 0xaa); }
    assert Leg(0x6b60, 0x574e, 0xaa) by { FourHops(0x6b60, 0x8264, 0x5a40, 0x6e72, 0x574e, 0xaa); }
    FourLegs(0x4c, 0xa3d5, 0xce8d, 0xf433, 0x6b60, 0x574e, 0xaa, n);
  }

  lemma Apart0And77(n: nat)
    requires n < 256
    ensures Run(Shifted(0x4d), n + 2) != 0xbd
  {
    hide Leg;
    assert Leg(0xf909, 0x1824, 0xbd) by { FourHops(0xf909, 0x8c76, 0x0666, 0x59bd, 0x1824, 0xbd); }
    assert Leg(0x1824, 0x0c09, 0xbd) by { FourHops(0x1824, 0x90f5, 0x637d, 0x8428, 0x0c09, 0xbd); }
    assert Leg(0x0c09, 0xe70f, 0xbd) by { FourHops(0x0c09, 0xa71f, 0xc164, 0x198c, 0xe70f, 0xbd); }
    assert Leg(0xe70f, 0x8ef3, 0xbd) by { FourHops(0xe70f, 0xfb5e, 0x99eb, 0xb73a, 0x8ef3, 0xbd); }
    FourLegs(0x4d, 0xf909, 0x1824, 0x0c09, 0xe70f, 0x8ef3, 0xbd, n);
  }

  lemma Apart11And69(n: nat)
    requires n < 256
    ensures Run(Shifted(0x4e), n + 2) != 0xaa
  {
    hide Leg;
    assert Leg(0x166d, 0x6bce, 0xaa) by { FourHops(0x166d, 0x31bc, 0x112d, 0x5779, 0x6bce, 0xaa); }
    assert Leg(0x6bce, 0x0c56, 0xaa) by { FourHops(0x6bce, 0x81e7, 0x3c0a, 0xd203, 0x0c56, 0xaa); }
    assert Leg(0x0c56, 0x7baf, 0xaa) by { FourHops(0x0c56, 0x7212, 0x5162, 0xb84e, 0x7baf, 0xaa); }
    assert Leg(0x7baf, 0xec25, 0xaa) by { FourHops(0x7baf, 0x7010, 0xd507, 0xd4f3, 0xec25, 0xaa); }
    FourLegs(0x4e, 0x166d, 0x6bce, 0x0c56, 0x7baf, 0xec25, 0xaa, n);
  }

  lemma Apart11And76(n: nat)
    requires n < 256
    ensures Run(Shifted(0x47), n + 2) != 0xc1
  {
    hide Leg;
    assert Leg(0x8a73, 0x3849, 0xc1) by { FourHops(0x8a73, 0x18f9, 0x75dc, 0x7f25, 0x3849, 0xc1); }
    assert Leg(0x3849, 0x0dcb, 0xc1) by { FourHops(0x3849, 0xf699, 0xa85e, 0x78c3, 0x0dcb, 0xc1); }
    assert Leg(0x0dcb, 0xb4fc, 0xc1) by { FourHops(0x0dcb, 0x4913, 0xb943, 0xc533, 0xb4fc, 0xc1); }
    assert Leg(0xb4fc, 0xc816, 0xc1) by { FourHops(0xb4fc, 0xd8c9, 0x3b92, 0xf79d, 0xc816, 0xc1); }
    FourLegs(0x47, 0x8a73, 0x3849, 0x0dcb, 0xb4fc, 0xc816, 0xc1, n);
  }

  lemma Apart11And77(n: nat)
    requires n < 256
    ensures Run(Shifted(0x46), n + 2) != 0xd6
  {
    hide Leg;
    assert Leg(0xd0af, 0xeee0, 0xd6) by { FourHops(0xd0af, 0x8bb0, 0x78e5, 0x7a99, 0xeee0, 0xd6); }
    assert Leg(0xeee0, 0xf5f1, 0xd6) by { FourHops(0xeee0, 0xf997, 0x657c, 0xb2d5, 0xf5f1, 0xd6); }
    assert Leg(0xf5f1, 0x3893, 0xd6) by { FourHops(0xf5f1, 0xfde7, 0x314e, 0x5d82, 0x3893, 0xd6); }
    assert Leg(0x3893, 0x11ab, 0xd6) by { FourHops(0x3893, 0xa1f3, 0xf839, 0x2ed5, 0x11ab, 0xd6); }
    FourLegs(0x46, 0xd0af, 0xeee0, 0xf5f1, 0x3893, 0x11ab, 0xd6, n);
  }

  lemma Apart69And76(n: nat)
    requires n < 256
    ensures Run(Shifted(0x9), n + 2) != 0x6b
  {
    hide Leg;
    assert Leg(0x9c1e, 0x5387, 0x6b) by { FourHops(0x9c1e, 0x2945, 0x64f1, 0x285c, 0x5387, 0x6b); }
    assert Leg(0x5387, 0x019d, 0x6b) by { FourHops(0x5387, 0x777e, 0x9454, 0xaac0, 0x019d, 0x6b); }
    assert Leg(0x019d, 0xcf53, 0x6b) by { FourHops(0x019d, 0x3b01, 0xe821, 0x7d7d, 0xcf53, 0x6b); }
    assert Leg(0xcf53, 0x2433, 0x6b) by { FourHops(0xcf53, 0xa8d9, 0xee95, 0x236e, 0x2433, 0x6b); }
    FourLegs(0x9, 0x9c1e, 0x5387, 0x019d, 0xcf53, 0x2433, 0x6b, n);
  }

  lemma Apart69And77(n: nat)
    requires n < 256
    ensures Run(Shifted(0x8), n + 2) != 0x7c
  {
    hide Leg;
    assert Leg(0xc6c2, 0x852e, 0x7c) by { FourHops(0xc6c2, 0xba0c, 0x69c8, 0x2de0, 0x852e, 0x7c); }
    assert Leg(0x852e, 0xf9a7, 0x7c) by { FourHops(0x852e, 0x7870, 0x5976, 0x60d6, 0xf9a7, 0x7c); }
    assert Leg(0xf9a7, 0x433c, 0x7c) by { FourHops(0xf9a7, 0x8ff5, 0x602c, 0xe5cc, 0x433c, 0x7c); }
    assert Leg(0x433c, 0xfd8e, 0x7c) by { FourHops(0x433c, 0xd1e3, 0x2d3e, 0xfa26, 0xfd8e, 0x7c); }
    FourLegs(0x8, 0xc6c2, 0x852e, 0xf9a7, 0x433c, 0xfd8e, 0x7c, n);
  }

  lemma Apart76And77(n: nat)
    requires n < 256
    ensures Run(Shifted(0x1), n + 2) != 0x17
  {
    hide Leg;
    assert Leg(0x5adc, 0xd6a9, 0x17) by { FourHops(0x5adc, 0x9349, 0x0d39, 0x05bc, 0xd6a9, 0x17); }
    assert Leg(0xd6a9, 0xf83a, 0x17) by { FourHops(0xd6a9, 0x0f0e, 0xcd22, 0xca16, 0xf83a, 0x17); }
    assert Leg(0xf83a, 0x8c6f, 0x17) by { FourHops(0xf83a, 0xb4f4, 0x880d, 0x98b1, 0x8c6f, 0x17); }
    assert Leg(0x8c6f, 0xd9bd, 0x17) by { FourHops(0x8c6f, 0x793a, 0xc3ab, 0xd948, 0xd9bd, 0x17); }
    FourLegs(0x1, 0x5adc, 0xd6a9, 0xf83a, 0x8c6f, 0xd9bd, 0x17, n);
  }

  lemma ByteWithBits(b: Byte, v: bv16)
    requires Hi(v) == 0 && FromBits(v) == b
    ensures ToBits(b) == v
  {
    hide ToBits, FromBits;
    ByteOfBits(v);
  }

  lemma SeedBits()
    ensures ToBits(0) == 0 && ToBits(11) == 0xb && ToBits(69) == 0x45 && ToBits(76) == 0x4c && ToBits(77) == 0x4d
    ensures ToBits(50) == 0x32 && ToBits(89) == 0x59 && ToBits(243) == 0xf3
    ensures ToBits(152) == 0x98 && ToBits(143) == 0x8f
  {
    hide ToBits;
    ByteWithBits(0, 0); ByteWithBits(11, 0xb); ByteWithBits(69, 0x45); ByteWithBits(76, 0x4c); ByteWithBits(77, 0x4d);
    ByteWithBits(50, 0x32); ByteWithBits(89, 0x59); ByteWithBits(243, 0xf3);
    ByteWithBits(152, 0x98); ByteWithBits(143, 0x8f);
  }

  /** No two known ids, changed into each other, are taken for one another behind a payload of any length. */
  lemma KnownIdsStayApart(from: Byte, to: Byte, n: nat)
    requires from != to && CrcExtra(from as int).Some? && CrcExtra(to as int).Some? && n < 256
    ensures Run(Shifted(Xor(ToBits(from), ToBits(to))), n + 2)
            != Xor(ToBits(CrcExtra(from as int).value), ToBits(CrcExtra(to as int).value))
  {
    SeedBits();
    hide Run, ToBits;
    if (from == 0 && to == 11) || (from == 11 && to == 0) { Apart0And11(n); }
    else if (from == 0 && to == 69) || (from == 69 && to == 0) { Apart0And69(n); }
    else if (from == 0 && to == 76) || (from == 76 && to == 0) { Apart0And76(n); }
    else if (from == 0 && to == 77) || (from == 77 && to == 0) { Apart0And77(n); }
    else if (from == 11 && to == 69) || (from == 69 && to == 11) { Apart11And69(n); }
    else if (from == 11 && to == 76) || (from == 76 && to == 11) { Apart11And76(n); }
    else if (from == 11 && to == 77) || (from == 77 && to == 11) { Apart11And77(n); }
    else if (from == 69 && to == 76) || (from == 76 && to == 69) { Apart69And76(n); }
    else if (from == 69 && to == 77) || (from == 77 && to == 69) { Apart69And77(n); }
    else if (from == 76 && to == 77) || (from == 77 && to == 76) { Apart76And77(n); }
  }

  /** Two covered regions that differ in one id byte, under the seeds of their two ids, have different checksums. */
  lemma ChecksumsDiffer(head: Bytes, from: Byte, to: Byte, tail: Bytes)
    requires from != to && CrcExtra(from as int).Some? && CrcExtra(to as int).Some? && 2 <= |tail| < 258
    ensures Crc(head + ([from] + tail), CrcExtra(from as int).value)
            != Crc(head + ([to] + tail), CrcExtra(to as int).value)
  {
    hide Accumulate, ToBits, FromBits, Fold, Hi, Xor, Run, CrcExtra;
    var c, x, y := Fold(CRC_INIT, head), CrcExtra(from as int).value, CrcExtra(to as int).value;
    FoldSplit(CRC_INIT, head, [from] + tail);
    FoldSplit(CRC_INIT, head, [to] + tail);
    FoldOne(c, from, tail);
    FoldOne(c, to, tail);
    ToBitsSmall(from); ToBitsSmall(to); ToBitsSmall(x); ToBitsSmall(y);
    ByteIsInjected(c, ToBits(from), ToBits(to));
    DifferenceRuns(Accumulate(c, ToBits(from)), Accumulate(c, ToBits(to)), tail);
    KnownIdsStayApart(from, to, |tail| - 2);
    var p, q := Fold(CRC_INIT, head + ([from] + tail)), Fold(CRC_INIT, head + ([to] + tail));
    if Accumulate(p, ToBits(x)) == Accumulate(q, ToBits(y)) { MeetingDetermines(p, ToBits(x), q, ToBits(y)); }
  }

  /** All known ids are single bytes, so a change between two of them is a change of the first id byte. */
  lemma KnownIdsAreSmall(f: Bytes, i: nat, b: Byte)
    requires |f| >= HEADER && 7 <= i <= 9 && f[i] != b
    requires CrcExtra(MessageId(f)).Some? && CrcExtra(MessageId(f[i := b])).Some?
    ensures i == 7 && MessageId(f) == f[7] as int && MessageId(f[i := b]) == b as int
  {
    assert MessageId(f) < 256 && MessageId(f[i := b]) < 256;
  }

  lemma KnownIdIsRejected(s: Sent, i: nat, b: Byte)
    requires s.Valid() && 7 <= i <= 9 && s.Wire()[i] != b && CrcExtra(MessageId(s.Wire()[i := b])).Some?
    ensures Parse(s.Wire()[i := b]) == Error
  {
    hide Crc, CrcExtra, ToBits, Join, Built;
    WireParts(s);
    var f, end := s.Wire(), s.End();
    var g := f[i := b];
    KnownIdsAreSmall(f, i, b);
    hide MessageId;
    var head, tail := f[1..7], f[8..end];
    assert f[1..end] == head + ([f[7]] + tail);
    assert g[1..end] == head + ([b] + tail);
    ChecksumsDiffer(head, f[7], b, tail);
  }

  /**
   * The parser takes a built frame with one byte changed exactly when the change gives it a message id the office does
   * not know; every other change of a single byte, to any other value, is rejected.
   */
  lemma ChangeIsAcceptedExactly(s: Sent, i: nat, b: Byte)
    requires s.Valid() && i < s.End() + CHECKSUM && s.Wire()[i] != b
    ensures Parse(s.Wire()[i := b]).Ok? <==> 7 <= i <= 9 && CrcExtra(MessageId(s.Wire()[i := b])).None?
  {
    hide Parse, Built, CrcExtra;
    if !(7 <= i <= 9) { SingleByteChangeIsRejected(s, i, b); }
    else if CrcExtra(MessageId(s.Wire()[i := b])).None? { UnknownIdIsAccepted(s, i, b); }
    else { KnownIdIsRejected(s, i, b); }
  }
}
