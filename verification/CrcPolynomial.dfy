/**
 The checksums of API/subscribe.c and API/wfb_traj.c as the standards define them: remainders of the message polynomial,
 section 2 of ITU-T V.41 for the CRC-16 and section 8 of RFC 1952 for the CRC-32.
 */
module CrcPolynomial {
  import opened Gf2
  import opened Crc
  import opened Crc32

  // ---------- CRC-16: the register's top bit is x^15 ----------

  /** x^16 + x^12 + x^5 + 1 */
  const G16: seq<nat> := [0, 5, 12, 16]

  predicate FromTop(c: bv16, k: nat)
    decreases k
  {
    if k == 0 then Top16(c) else FromTop(Double16(c), k - 1)
  }

  predicate Has16(c: bv16, n: nat) { n < 16 && FromTop(c, 15 - n) }

  function Poly16(c: bv16): Poly { set n: nat | n < 16 && Has16(c, n) }

  predicate FromTop8(b: bv8, k: nat)
    decreases k
  {
    if k == 0 then Top8(b) else FromTop8(Double8(b), k - 1)
  }

  predicate Top8(b: bv8) { b & 0x80 != 0 }

  function Double8(b: bv8): bv8 { b << 1 }

  predicate Has8(b: bv8, n: nat) { n < 8 && FromTop8(b, 7 - n) }

  function Byte16(b: bv8): Poly { set n: nat | n < 8 && Has8(b, n) }

  /** A message's bits, each byte with its top bit first. */
  function Message16(data: seq<bv8>): Poly {
    if data == [] then {} else Sum(Shift(Message16(data[..|data| - 1]), 8), Byte16(data[|data| - 1]))
  }

  lemma TopXor(a: bv16, b: bv16)
    ensures Top16(Xor16(a, b)) <==> Top16(a) != Top16(b)
  {
    RawTop(a, b);
  }

  lemma DoubleXor(a: bv16, b: bv16)
    ensures Double16(Xor16(a, b)) == Xor16(Double16(a), Double16(b))
  {
  }

  lemma {:induction false} FromTopXor(a: bv16, b: bv16, k: nat)
    ensures FromTop(Xor16(a, b), k) <==> FromTop(a, k) != FromTop(b, k)
    decreases k
  {
    hide Top16, Double16, Xor16;
    TopXor(a, b);
    DoubleXor(a, b);
    if k > 0 { FromTopXor(Double16(a), Double16(b), k - 1); }
  }

  lemma Poly16Xor(a: bv16, b: bv16)
    ensures Poly16(Xor16(a, b)) == Sum(Poly16(a), Poly16(b))
  {
    hide FromTop, Xor16;
    forall n: nat ensures n < 16 ==> (Has16(Xor16(a, b), n) <==> Has16(a, n) != Has16(b, n)) {
      if n < 16 { FromTopXor(a, b, 15 - n); }
    }
    hide Has16;
  }

  /** After sixteen shifts nothing is left. */
  lemma NothingLeft(c: bv16)
    ensures !FromTop(c, 16)
  {
    FourOn(c, 12);
    FourOn(c << 4, 8);
    FourOn(c << 4 << 4, 4);
    FourOn(c << 4 << 4 << 4, 0);
    RawGone(c);
  }

  lemma RawGone(c: bv16)
    ensures (c << 4 << 4 << 4 << 4) & 0x8000 == 0
  {
  }

  lemma FourOn(c: bv16, k: nat)
    ensures FromTop(c, k + 4) <==> FromTop(c << 4, k)
  {
    hide Double16, Top16;
    var d := Double16(c);
    assert FromTop(c, k + 4) == FromTop(d, k + 3);
    assert FromTop(d, k + 3) == FromTop(Double16(d), k + 2);
    assert FromTop(Double16(d), k + 2) == FromTop(Double16(Double16(d)), k + 1);
    assert FromTop(Double16(Double16(d)), k + 1) == FromTop(Double16(Double16(Double16(d))), k);
    FourDoubles(c);
  }

  lemma FourDoubles(c: bv16)
    ensures Double16(Double16(Double16(Double16(c)))) == c << 4
  {
  }

  /** One shift is a multiplication by x, with the generator taken off if x^16 comes up. */
  lemma ShiftStep16(c: bv16)
    ensures Same(Poly16(Shift16(c)), Shift(Poly16(c), 1), G16)
  {
    DoublePoly(c);
    GeneratorBits();
    hide FromTop, Has16, Poly16, Top16, Double16, Xor16, Times, Shift, Sum;
    TakenOff(Poly16(Double16(c)), {0, 5, 12}, 16);
    if Top16(c) {
      Poly16Xor(Double16(c), 0x1021);
      TimesOne(G16);
      assert {0, 5, 12} + {16} == {0, 5, 12, 16};
    } else {
      MultipleNone(G16);
      assert Poly16(Double16(c)) + {} == Poly16(Double16(c));
    }
  }

  /** Doubling the register drops x^16. */
  lemma DoublePoly(c: bv16)
    ensures Shift(Poly16(c), 1) == Poly16(Double16(c)) + (if Top16(c) then {16} else {}) && 16 !in Poly16(Double16(c))
  {
    hide Top16, Double16;
    NothingLeft(c);
    forall n: nat ensures n in Shift(Poly16(c), 1) <==> n in Poly16(Double16(c)) + (if Top16(c) then {16} else {}) {
      InShift(Poly16(c), 1, n);
      if 0 < n < 16 { assert FromTop(c, 16 - n) == FromTop(Double16(c), 15 - n); }
      if n == 0 { assert FromTop(c, 16) == FromTop(Double16(c), 15); }
    }
  }

  lemma FirstFour(c: bv16)
    ensures FromTop(c, 0) == (c & 0x8000 != 0) && FromTop(c, 1) == (c & 0x4000 != 0)
    ensures FromTop(c, 2) == (c & 0x2000 != 0) && FromTop(c, 3) == (c & 0x1000 != 0)
  {
    hide Top16, Double16;
    Nibble(c);
    assert FromTop(c, 1) == FromTop(Double16(c), 0);
    assert FromTop(c, 2) == FromTop(Double16(c), 1) == FromTop(Double16(Double16(c)), 0);
    assert FromTop(c, 3) == FromTop(Double16(c), 2) == FromTop(Double16(Double16(c)), 1) == FromTop(Double16(Double16(Double16(c))), 0);
  }

  lemma Nibble(c: bv16)
    ensures Top16(c) == (c & 0x8000 != 0) && Top16(Double16(c)) == (c & 0x4000 != 0)
    ensures Top16(Double16(Double16(c))) == (c & 0x2000 != 0) && Top16(Double16(Double16(Double16(c)))) == (c & 0x1000 != 0)
  {
  }

  lemma GeneratorAt(k: nat)
    requires k < 16
    ensures FromTop(0x1021, k) <==> k in {3, 10, 15}
  {
    hide FromTop;
    if k < 4 { FirstFour(0x1021); } else {
      FourOn(0x1021, k - 4);
      if k < 8 { FirstFour(0x0210); } else {
        FourOn(0x0210, k - 8);
        if k < 12 { FirstFour(0x2100); } else {
          FourOn(0x2100, k - 12);
          FirstFour(0x1000);
        }
      }
    }
  }

  lemma GeneratorBits()
    ensures Poly16(0x1021) == {0, 5, 12} && (set n | n in G16) == {0, 5, 12, 16} && Rising(G16)
  {
    hide FromTop;
    forall n: nat ensures n in Poly16(0x1021) <==> n in {0, 5, 12} {
      if n < 16 { GeneratorAt(15 - n); }
    }
  }

  lemma {:induction false} ShiftSteps16(c: bv16, n: nat)
    ensures Same(Poly16(Shifts16(c, n)), Shift(Poly16(c), n), G16)
  {
    hide Poly16, Shift16, Shift, Same;
    SameSelf(Poly16(c), G16);
    if n > 0 {
      var d := Shifts16(c, n - 1);
      ShiftSteps16(c, n - 1);
      ShiftStep16(d);
      SameShift(Poly16(d), Shift(Poly16(c), n - 1), 1, G16);
      ShiftShift(Poly16(c), n - 1, 1);
      SameSteps(Poly16(Shift16(d)), Shift(Poly16(d), 1), Shift(Poly16(c), n), G16);
    }
  }

  lemma HighTop(b: bv8)
    ensures Top16(High(b)) == Top8(b)
  {
  }

  lemma HighDouble(b: bv8)
    ensures Double16(High(b)) == High(Double8(b))
  {
  }

  lemma {:induction false} HighFromTop(b: bv8, k: nat)
    ensures FromTop(High(b), k) == FromTop8(b, k)
    decreases k
  {
    hide Top16, Top8, Double16, Double8, High;
    HighTop(b);
    HighDouble(b);
    if k > 0 { HighFromTop(Double8(b), k - 1); }
  }

  lemma FourDoubles8(b: bv8)
    ensures Double8(Double8(Double8(Double8(b)))) == b << 4
  {
  }

  lemma FourOn8(b: bv8, k: nat)
    ensures FromTop8(b, k + 4) <==> FromTop8(b << 4, k)
  {
    hide Double8, Top8;
    var d := Double8(b);
    assert FromTop8(b, k + 4) == FromTop8(d, k + 3);
    assert FromTop8(d, k + 3) == FromTop8(Double8(d), k + 2);
    assert FromTop8(Double8(d), k + 2) == FromTop8(Double8(Double8(d)), k + 1);
    assert FromTop8(Double8(Double8(d)), k + 1) == FromTop8(Double8(Double8(Double8(d))), k);
    FourDoubles8(b);
  }

  lemma {:induction false} ZeroFromTop8(k: nat)
    ensures !FromTop8(0, k)
  {
    ZeroDouble8();
    hide Double8, Top8;
    if k > 0 { ZeroFromTop8(k - 1); }
  }

  lemma ZeroDouble8()
    ensures Double8(0) == 0 && !Top8(0)
  {
  }

  lemma RawGone8(b: bv8)
    ensures b << 4 << 4 == 0
  {
  }

  lemma HighPoly(b: bv8)
    ensures Poly16(High(b)) == Shift(Byte16(b), 8)
  {
    hide FromTop, FromTop8, High;
    forall n: nat ensures n in Poly16(High(b)) <==> n in Shift(Byte16(b), 8) {
      InShift(Byte16(b), 8, n);
      if n < 16 { HighFromTop(b, 15 - n); }
      if n < 8 {
        FourOn8(b, 11 - n);
        FourOn8(b << 4, 7 - n);
        RawGone8(b);
        ZeroFromTop8(7 - n);
      }
    }
  }

  lemma {:induction false} Remainder16(data: seq<bv8>)
    ensures Same(Sum(Shift(Message16(data), 16), {}), Poly16(Run16(0, data)), G16)
  {
    hide Poly16, Shifts16, Xor16, High, Shift, Sum, Same, Byte16;
    if data == [] { NothingYet(); } else {
      var before, b := data[..|data| - 1], data[|data| - 1];
      var c := Run16(0, before);
      Remainder16(before);
      ShiftSteps16(Xor16(c, High(b)), 8);
      Poly16Xor(c, High(b));
      HighPoly(b);
      ByteStep(Message16(before), {}, Poly16(c), Byte16(b), Poly16(Run16(0, data)), 16, G16);
      NoSum();
    }
  }

  lemma NothingYet()
    ensures Same(Sum(Shift({}, 16), {}), Poly16(0), G16)
  {
    MultipleNone(G16);
    ZeroPoly16();
    hide Poly16;
  }

  lemma ZeroPoly16()
    ensures Poly16(0) == {}
  {
    Poly16Xor(0, 0);
    hide Poly16;
    assert Xor16(0, 0) == 0;
  }

  /** The CRC-16 is the remainder of the message, times x^16, by the generator; it is the only one of degree under 16. */
  lemma Crc16IsRemainder(data: seq<bv8>, r: Poly)
    requires Under(r, 16)
    ensures Same(Shift(Message16(data), 16), r, G16) <==> r == Poly16(Crc16(data))
  {
    hide Run16, Shift, Message16, Same;
    Remainder16(data);
    var m, p := Shift(Message16(data), 16), Poly16(Crc16(data));
    assert Sum(m, {}) == m;
    GeneratorBits();
    if Same(m, r, G16) { RemainderUnique(m, p, r, G16, 16); }
  }

  // ---------- CRC-32: the register's lowest bit is x^31 ----------

  /** x^32 + x^26 + x^23 + x^22 + x^16 + x^12 + x^11 + x^10 + x^8 + x^7 + x^5 + x^4 + x^2 + x + 1 */
  const G32: seq<nat> := [0, 1, 2, 4, 5, 7, 8, 10, 11, 12, 16, 22, 23, 26, 32]

  function Rest32(): Poly {
    {0, 1, 2, 4, 5, 7, 8, 10, 11, 12, 16, 22, 23, 26}
  }

  predicate FromLow(c: bv32, k: nat)
    decreases k
  {
    if k == 0 then Low32(c) else FromLow(Half32(c), k - 1)
  }

  predicate Has32(c: bv32, n: nat) { n < 32 && FromLow(c, 31 - n) }

  function Poly32(c: bv32): Poly { set n: nat | n < 32 && Has32(c, n) }

  predicate FromLow8(b: bv8, k: nat)
    decreases k
  {
    if k == 0 then Low8(b) else FromLow8(Half8(b), k - 1)
  }

  predicate Low8(b: bv8) { b & 1 != 0 }

  function Half8(b: bv8): bv8 { b >> 1 }

  predicate Last8(b: bv8, n: nat) { n < 8 && FromLow8(b, 7 - n) }

  function Byte32(b: bv8): Poly { set n: nat | n < 8 && Last8(b, n) }

  /** A message's bits, each byte with its lowest bit first. */
  function Message32(data: seq<bv8>): Poly {
    if data == [] then {} else Sum(Shift(Message32(data[..|data| - 1]), 8), Byte32(data[|data| - 1]))
  }

  lemma {:induction false} FromLowXor(a: bv32, b: bv32, k: nat)
    ensures FromLow(Xor32(a, b), k) <==> FromLow(a, k) != FromLow(b, k)
    decreases k
  {
    hide Low32, Half32, Xor32;
    LowLinear32(a, b);
    HalfLinear32(a, b);
    if k > 0 { FromLowXor(Half32(a), Half32(b), k - 1); }
  }

  lemma Poly32Xor(a: bv32, b: bv32)
    ensures Poly32(Xor32(a, b)) == Sum(Poly32(a), Poly32(b))
  {
    hide FromLow, Xor32;
    forall n: nat ensures n < 32 ==> (Has32(Xor32(a, b), n) <==> Has32(a, n) != Has32(b, n)) {
      if n < 32 { FromLowXor(a, b, 31 - n); }
    }
    hide Has32;
  }

  lemma FourHalves(c: bv32)
    ensures Half32(Half32(Half32(Half32(c)))) == c >> 4
  {
  }

  lemma FourOn32(c: bv32, k: nat)
    ensures FromLow(c, k + 4) <==> FromLow(c >> 4, k)
  {
    hide Half32, Low32;
    var d := Half32(c);
    assert FromLow(c, k + 4) == FromLow(d, k + 3);
    assert FromLow(d, k + 3) == FromLow(Half32(d), k + 2);
    assert FromLow(Half32(d), k + 2) == FromLow(Half32(Half32(d)), k + 1);
    assert FromLow(Half32(Half32(d)), k + 1) == FromLow(Half32(Half32(Half32(d))), k);
    FourHalves(c);
  }

  function Quarter(c: bv32): bv32 { c >> 4 }

  lemma Sixteenth(c: bv32)
    ensures Quarter(Quarter(Quarter(Quarter(c)))) == c >> 16
  {
  }

  lemma FourOnQuarter(c: bv32, k: nat)
    ensures FromLow(c, k + 4) <==> FromLow(Quarter(c), k)
  {
    FourOn32(c, k);
  }

  lemma RawGone32(c: bv32)
    ensures (c >> 16) >> 16 == 0
  {
  }

  lemma SixteenOn32(c: bv32, k: nat)
    ensures FromLow(c, k + 16) <==> FromLow(c >> 16, k)
  {
    hide FromLow, Quarter;
    var q := Quarter(c);
    FourOnQuarter(c, k + 12);
    FourOnQuarter(q, k + 8);
    FourOnQuarter(Quarter(q), k + 4);
    FourOnQuarter(Quarter(Quarter(q)), k);
    Sixteenth(c);
  }

  lemma {:induction false} ZeroFromLow(k: nat)
    ensures !FromLow(0, k)
  {
    ZeroHalf32();
    hide Half32, Low32;
    if k > 0 { ZeroFromLow(k - 1); }
  }

  lemma ZeroHalf32()
    ensures Half32(0) == 0 && !Low32(0)
  {
  }

  lemma NothingLeft32(c: bv32)
    ensures !FromLow(c, 32)
  {
    hide FromLow;
    SixteenOn32(c, 16);
    SixteenOn32(c >> 16, 0);
    RawGone32(c);
    ZeroFromLow(0);
  }

  lemma HalfPoly(c: bv32)
    ensures Shift(Poly32(c), 1) == Poly32(Half32(c)) + (if Low32(c) then {32} else {}) && 32 !in Poly32(Half32(c))
  {
    hide Low32, Half32;
    NothingLeft32(c);
    forall n: nat ensures n in Shift(Poly32(c), 1) <==> n in Poly32(Half32(c)) + (if Low32(c) then {32} else {}) {
      InShift(Poly32(c), 1, n);
      if 0 < n < 32 { assert FromLow(c, 32 - n) == FromLow(Half32(c), 31 - n); }
      if n == 0 { assert FromLow(c, 32) == FromLow(Half32(c), 31); }
    }
  }

  lemma FirstFour32(c: bv32)
    ensures FromLow(c, 0) == (c & 1 != 0) && FromLow(c, 1) == (c & 2 != 0)
    ensures FromLow(c, 2) == (c & 4 != 0) && FromLow(c, 3) == (c & 8 != 0)
  {
    hide Low32, Half32;
    Nibble32(c);
    assert FromLow(c, 1) == FromLow(Half32(c), 0);
    assert FromLow(c, 2) == FromLow(Half32(c), 1) == FromLow(Half32(Half32(c)), 0);
    assert FromLow(c, 3) == FromLow(Half32(c), 2) == FromLow(Half32(Half32(c)), 1) == FromLow(Half32(Half32(Half32(c))), 0);
  }

  lemma Nibble32(c: bv32)
    ensures Low32(c) == (c & 1 != 0) && Low32(Half32(c)) == (c & 2 != 0)
    ensures Low32(Half32(Half32(c))) == (c & 4 != 0) && Low32(Half32(Half32(Half32(c)))) == (c & 8 != 0)
  {
  }

  lemma GeneratorAt32(k: nat)
    requires k < 32
    ensures FromLow(0xEDB88320, k) <==> k in {5, 8, 9, 15, 19, 20, 21, 23, 24, 26, 27, 29, 30, 31}
  {
    hide FromLow;
    if k < 4 { FirstFour32(0xEDB88320); } else {
      FourOn32(0xEDB88320, k - 4);
      if k < 8 { FirstFour32(0xEDB8832); } else {
        FourOn32(0xEDB8832, k - 8);
        if k < 12 { FirstFour32(0xEDB883); } else {
          FourOn32(0xEDB883, k - 12);
          if k < 16 { FirstFour32(0xEDB88); } else {
            FourOn32(0xEDB88, k - 16);
            if k < 20 { FirstFour32(0xEDB8); } else {
              FourOn32(0xEDB8, k - 20);
              if k < 24 { FirstFour32(0xEDB); } else {
                FourOn32(0xEDB, k - 24);
                if k < 28 { FirstFour32(0xED); } else {
                  FourOn32(0xED, k - 28);
                  FirstFour32(0xE);
                }
              }
            }
          }
        }
      }
    }
  }

  lemma OnesAt(k: nat)
    requires k < 32
    ensures FromLow(0xFFFF_FFFF, k)
  {
    hide FromLow;
    if k < 4 { FirstFour32(0xFFFFFFFF); } else {
      FourOn32(0xFFFFFFFF, k - 4);
      if k < 8 { FirstFour32(0xFFFFFFF); } else {
        FourOn32(0xFFFFFFF, k - 8);
        if k < 12 { FirstFour32(0xFFFFFF); } else {
          FourOn32(0xFFFFFF, k - 12);
          if k < 16 { FirstFour32(0xFFFFF); } else {
            FourOn32(0xFFFFF, k - 16);
            if k < 20 { FirstFour32(0xFFFF); } else {
              FourOn32(0xFFFF, k - 20);
              if k < 24 { FirstFour32(0xFFF); } else {
                FourOn32(0xFFF, k - 24);
                if k < 28 { FirstFour32(0xFF); } else {
                  FourOn32(0xFF, k - 28);
                  FirstFour32(0xF);
                }
              }
            }
          }
        }
      }
    }
  }

  lemma GeneratorExponents()
    ensures (set n | n in G32) == Rest32() + {32} && 32 !in Rest32()
  {
  }

  lemma GeneratorRises()
    ensures Rising(G32)
  {
    forall i, j | 0 <= i < j < |G32| ensures G32[i] < G32[j] { StepsRise(G32, i, j); }
  }

  lemma {:induction false} StepsRise(g: seq<nat>, i: nat, j: nat)
    requires i < j < |g| && forall k :: 0 <= k < |g| - 1 ==> g[k] < g[k + 1]
    ensures g[i] < g[j]
  {
    if i < j - 1 { StepsRise(g, i, j - 1); }
  }

  lemma GeneratorPoly()
    ensures Poly32(0xEDB88320) == Rest32()
  {
    hide FromLow;
    forall n: nat ensures n in Poly32(0xEDB88320) <==> n in Rest32() { GeneratorHas(n); }
    hide Poly32;
  }

  lemma GeneratorHas(n: nat)
    ensures n in Poly32(0xEDB88320) <==> n in Rest32()
  {
    hide FromLow;
    if n < 32 { GeneratorAt32(31 - n); }
  }

  lemma GeneratorBits32()
    ensures Poly32(0xEDB88320) == Rest32() && (set n | n in G32) == Rest32() + {32} && Rising(G32) && 32 !in Rest32()
  {
    GeneratorPoly();
    GeneratorRises();
    GeneratorExponents();
    hide *;
  }

  function Below(k: nat): Poly { if k == 0 then {} else Below(k - 1) + {k - 1} }

  lemma {:induction false} InBelow(k: nat, n: nat)
    ensures n in Below(k) <==> n < k
  {
    if k > 0 { InBelow(k - 1, n); }
  }

  /** Every exponent under 32. */
  function Ones(): Poly { Below(32) }

  lemma InOnes(n: nat)
    ensures n in Ones() <==> n < 32
  {
    InBelow(32, n);
  }

  lemma OnesPoly()
    ensures Poly32(0xFFFF_FFFF) == Ones()
  {
    hide FromLow;
    forall n: nat ensures n in Poly32(0xFFFF_FFFF) <==> n in Ones() {
      InOnes(n);
      if n < 32 { OnesAt(31 - n); }
    }
    hide Ones;
  }

  lemma ShiftStep32(c: bv32)
    ensures Same(Poly32(Shift32(c)), Shift(Poly32(c), 1), G32)
  {
    HalfPoly(c);
    GeneratorBits32();
    hide FromLow, Has32, Poly32, Low32, Half32, Xor32, Times, Shift, Sum, Rest32;
    TakenOff(Poly32(Half32(c)), Rest32(), 32);
    if Low32(c) {
      Poly32Xor(Half32(c), 0xEDB88320);
      TimesOne(G32);
    } else {
      MultipleNone(G32);
      assert Poly32(Half32(c)) + {} == Poly32(Half32(c));
    }
  }

  lemma {:induction false} ShiftSteps32(c: bv32, n: nat)
    ensures Same(Poly32(Shifts32(c, n)), Shift(Poly32(c), n), G32)
  {
    hide Poly32, Shift32, Shift, Same;
    SameSelf(Poly32(c), G32);
    if n > 0 {
      var d := Shifts32(c, n - 1);
      ShiftSteps32(c, n - 1);
      ShiftStep32(d);
      SameShift(Poly32(d), Shift(Poly32(c), n - 1), 1, G32);
      ShiftShift(Poly32(c), n - 1, 1);
      SameSteps(Poly32(Shift32(d)), Shift(Poly32(d), 1), Shift(Poly32(c), n), G32);
    }
  }

  lemma WideLow(b: bv8)
    ensures Low32(b as bv32) == Low8(b)
  {
  }

  lemma WideHalf(b: bv8)
    ensures Half32(b as bv32) == Half8(b) as bv32
  {
  }

  lemma {:induction false} WideFromLow(b: bv8, k: nat)
    ensures FromLow(b as bv32, k) == FromLow8(b, k)
    decreases k
  {
    hide Low32, Low8, Half32, Half8;
    WideLow(b);
    WideHalf(b);
    if k > 0 { WideFromLow(Half8(b), k - 1); }
  }

  lemma RawGoneWide(b: bv8)
    ensures (b as bv32) >> 4 >> 4 == 0
  {
  }

  lemma BytePoly(b: bv8)
    ensures Poly32(b as bv32) == Shift(Byte32(b), 24)
  {
    hide FromLow, FromLow8;
    forall n: nat ensures n in Poly32(b as bv32) <==> n in Shift(Byte32(b), 24) {
      InShift(Byte32(b), 24, n);
      if n < 32 { WideFromLow(b, 31 - n); }
      if n < 24 {
        FourOn32(b as bv32, 27 - n);
        FourOn32((b as bv32) >> 4, 23 - n);
        RawGoneWide(b);
        ZeroFromLow(23 - n);
      }
    }
  }

  lemma {:induction false} Remainder32(data: seq<bv8>)
    ensures Same(Sum(Shift(Message32(data), 32), Shift(Ones(), 8 * |data|)), Poly32(Run32(0xFFFF_FFFF, data)), G32)
  {
    hide Poly32, Shifts32, Xor32, Shift, Sum, Same, Byte32, Ones;
    if data == [] { FirstOnes(); } else {
      var before, b := data[..|data| - 1], data[|data| - 1];
      var c := Run32(0xFFFF_FFFF, before);
      Remainder32(before);
      ShiftSteps32(Xor32(c, b as bv32), 8);
      Poly32Xor(c, b as bv32);
      BytePoly(b);
      ByteStep(Message32(before), Shift(Ones(), 8 * |before|), Poly32(c), Byte32(b), Poly32(Run32(0xFFFF_FFFF, data)), 32, G32);
      ShiftShift(Ones(), 8 * |before|, 8);
    }
  }

  lemma FirstOnes()
    ensures Same(Sum(Shift({}, 32), Shift(Ones(), 0)), Poly32(0xFFFF_FFFF), G32)
  {
    hide Poly32, Ones;
    OnesPoly();
    MultipleNone(G32);
    assert Shift({}, 32) == {} && Shift(Ones(), 0) == Ones();
    assert Sum(Sum({}, Ones()), Ones()) == {};
  }

  /** The CRC-32, complemented, is the remainder of the message times x^32, its first 32 bits complemented; it is the only
      one of degree under 32. */
  lemma Crc32IsRemainder(data: seq<bv8>, r: Poly)
    requires Under(r, 32)
    ensures Same(Sum(Shift(Message32(data), 32), Shift(Ones(), 8 * |data|)), Sum(r, Ones()), G32) <==> r == Poly32(Crc32Of(data))
  {
    hide Run32, Shift, Message32, Same, Xor32, Ones, Poly32;
    Remainder32(data);
    OnesPoly();
    var m, p, c := Sum(Shift(Message32(data), 32), Shift(Ones(), 8 * |data|)), Poly32(Run32(0xFFFF_FFFF, data)), Poly32(Crc32Of(data));
    Poly32Xor(Run32(0xFFFF_FFFF, data), 0xFFFF_FFFF);
    Poly32Under(Run32(0xFFFF_FFFF, data));
    Complement(p);
    Complement(r);
    GeneratorBits32();
    if Same(m, Sum(r, Ones()), G32) { RemainderUnique(m, p, Sum(r, Ones()), G32, 32); }
  }

  lemma Poly32Under(c: bv32)
    ensures Under(Poly32(c), 32)
  {
  }

  lemma Complement(p: Poly)
    requires Under(p, 32)
    ensures Under(Sum(p, Ones()), 32) && Sum(Sum(p, Ones()), Ones()) == p
  {
    hide Ones;
    forall n: nat ensures n in Ones() <==> n < 32 { InOnes(n); }
  }
}
