/**
 The checksums: CRC-16 of API/subscribe.c (generator of section 2 of ITU-T V.41, register cleared first) and CRC-32 of
 API/wfb_traj.c and API/wfb_prog.c (section 8 of RFC 1952), bit by bit as the code runs them, and the changes they
 are certain to detect. Both rest on one fact: a shift step is linear and loses nothing.
 */
module Crc {
  // ---------- CRC-16 ----------

  function Shift16(c: bv16): bv16 { if Top16(c) then Xor16(Double16(c), 0x1021) else Double16(c) }

  function Double16(c: bv16): bv16 { c << 1 }

  predicate Top16(c: bv16) { c & 0x8000 != 0 }

  function Shifts16(c: bv16, n: nat): bv16 { if n == 0 then c else Shift16(Shifts16(c, n - 1)) }

  function High(b: bv8): bv16 { (b as bv16) << 8 }

  /** The register after some bytes. */
  function Run16(c: bv16, data: seq<bv8>): bv16 {
    if data == [] then c else Shifts16(Xor16(Run16(c, data[..|data| - 1]), High(data[|data| - 1])), 8)
  }

  function Crc16(data: seq<bv8>): bv16 { Run16(0, data) }

  function Xor16(a: bv16, b: bv16): bv16 { a ^ b }

  lemma RawDouble(a: bv16, b: bv16)
    ensures (a ^ b) << 1 == (a << 1) ^ (b << 1)
  {
  }

  lemma RawTop(a: bv16, b: bv16)
    ensures (a ^ b) & 0x8000 != 0 <==> (a & 0x8000 != 0) != (b & 0x8000 != 0)
  {
  }

  lemma Assoc16(a: bv16, b: bv16, c: bv16)
    ensures Xor16(Xor16(a, b), c) == Xor16(a, Xor16(b, c))
  {
  }

  lemma Commute16(a: bv16, b: bv16)
    ensures Xor16(a, b) == Xor16(b, a)
  {
  }

  lemma RawCancel16(a: bv16, b: bv16)
    requires a ^ b == 0
    ensures a == b
  {
  }

  lemma RawSelf16(a: bv16)
    ensures a ^ a == 0
  {
  }

  lemma Cancel16(a: bv16, b: bv16)
    ensures Xor16(a, b) == 0 <==> a == b
  {
    RawSelf16(a);
    if Xor16(a, b) == 0 { RawCancel16(a, b); }
  }

  lemma Zero16(a: bv16)
    ensures Xor16(a, 0) == a
  {
  }

  /** Pairing two sums. */
  lemma Pairs16(a: bv16, b: bv16, c: bv16, d: bv16)
    ensures Xor16(Xor16(a, b), Xor16(c, d)) == Xor16(Xor16(a, c), Xor16(b, d))
  {
    hide Xor16;
    Assoc16(a, b, Xor16(c, d));
    Assoc16(b, c, d);
    Commute16(b, c);
    Assoc16(c, b, d);
    Assoc16(a, c, Xor16(b, d));
  }

  lemma DoubleLinear16(a: bv16, b: bv16)
    ensures Double16(Xor16(a, b)) == Xor16(Double16(a), Double16(b))
  {
    RawDouble(a, b);
  }

  lemma TopLinear16(a: bv16, b: bv16)
    ensures Top16(Xor16(a, b)) <==> Top16(a) != Top16(b)
  {
    RawTop(a, b);
  }

  lemma Shift16Linear(a: bv16, b: bv16)
    ensures Shift16(Xor16(a, b)) == Xor16(Shift16(a), Shift16(b))
  {
    hide Top16, Double16, Xor16;
    DoubleLinear16(a, b);
    TopLinear16(a, b);
    var x, y, g := Double16(a), Double16(b), 0x1021;
    Zero16(x);
    Zero16(y);
    Zero16(Xor16(x, y));
    Cancel16(g, g);
    Cancel16(0, 0);
    Commute16(g, 0);
    Zero16(g);
    Pairs16(x, if Top16(a) then g else 0, y, if Top16(b) then g else 0);
  }

  /** The generator ends in x^0, so only zero shifts to zero. */
  lemma Shift16Kernel(c: bv16)
    requires Shift16(c) == 0
    ensures c == 0
  {
    assert (c << 1) & 1 == 0;
    assert ((c << 1) ^ 0x1021) & 1 == 1;
    assert c & 0x8000 == 0 && c << 1 == 0 ==> c == 0;
  }

  lemma {:induction false} Shifts16Linear(a: bv16, b: bv16, n: nat)
    ensures Shifts16(Xor16(a, b), n) == Xor16(Shifts16(a, n), Shifts16(b, n))
  {
    hide Shift16, Xor16;
    if n > 0 {
      Shifts16Linear(a, b, n - 1);
      Shift16Linear(Shifts16(a, n - 1), Shifts16(b, n - 1));
    }
  }

  lemma {:induction false} Shifts16Kernel(c: bv16, n: nat)
    requires Shifts16(c, n) == 0
    ensures c == 0
  {
    hide Shift16;
    if n > 0 {
      Shift16Kernel(Shifts16(c, n - 1));
      Shifts16Kernel(c, n - 1);
    }
  }

  lemma {:induction false} Shifts16Add(c: bv16, n: nat, m: nat)
    ensures Shifts16(Shifts16(c, n), m) == Shifts16(c, n + m)
  {
    hide Shift16;
    if m > 0 { Shifts16Add(c, n, m - 1); }
  }

  /** Eight shifts of a register whose upper byte is clear just move its lower byte up. */
  lemma Shifts16Low(b: bv8)
    ensures Shifts16(b as bv16, 8) == High(b)
  {
    var c := b as bv16;
    UpStep(c, 0); UpStep(c, 1); UpStep(c, 2); UpStep(c, 3);
    UpStep(c, 4); UpStep(c, 5); UpStep(c, 6); UpStep(c, 7);
    hide Shift16, Up;
    assert Shifts16(c, 0) == c;
    assert Shifts16(c, 1) == Shift16(Shifts16(c, 0));
    assert Shifts16(c, 2) == Shift16(Shifts16(c, 1));
    assert Shifts16(c, 3) == Shift16(Shifts16(c, 2));
    assert Shifts16(c, 4) == Shift16(Shifts16(c, 3));
    assert Shifts16(c, 5) == Shift16(Shifts16(c, 4));
    assert Shifts16(c, 6) == Shift16(Shifts16(c, 5));
    assert Shifts16(c, 7) == Shift16(Shifts16(c, 6));
    assert Shifts16(c, 8) == Shift16(Shifts16(c, 7));
    UpEnds(b);
  }

  function Up(c: bv16, n: nat): bv16
    requires n <= 8
  {
    match n
    case 0 => c case 1 => c << 1 case 2 => c << 2 case 3 => c << 3
    case 4 => c << 4 case 5 => c << 5 case 6 => c << 6 case 7 => c << 7 case _ => c << 8
  }

  lemma UpEnds(b: bv8)
    ensures Up(b as bv16, 0) == b as bv16 && Up(b as bv16, 8) == High(b)
  {
  }

  lemma UpStep(c: bv16, n: nat)
    requires n <= 7 && c <= 0xFF
    ensures Shift16(Up(c, n)) == Up(c, n + 1)
  {
  }

  lemma Shifts16Injective(a: bv16, b: bv16, n: nat)
    requires Shifts16(a, n) == Shifts16(b, n)
    ensures a == b
  {
    hide Xor16, Shift16, Shifts16;
    Shifts16Linear(a, b, n);
    Cancel16(Shifts16(a, n), Shifts16(b, n));
    Shifts16Kernel(Xor16(a, b), n);
    Cancel16(a, b);
  }

  lemma XorInjective16(a: bv16, b: bv16, c: bv16)
    requires Xor16(a, c) == Xor16(b, c)
    ensures a == b
  {
  }

  lemma {:induction false} RunAppend16(c: bv16, a: seq<bv8>, b: seq<bv8>)
    ensures Run16(c, a + b) == Run16(Run16(c, a), b)
  {
    hide Shifts16, Xor16;
    if b == [] {
      assert a + b == a;
    } else {
      assert (a + b)[..|a + b| - 1] == a + b[..|b| - 1];
      RunAppend16(c, a, b[..|b| - 1]);
    }
  }

  lemma {:induction false} RunInjective16(a: bv16, b: bv16, data: seq<bv8>)
    requires Run16(a, data) == Run16(b, data)
    ensures a == b
  {
    hide Shifts16, Xor16;
    if data != [] {
      var last, before := data[|data| - 1], data[..|data| - 1];
      Shifts16Injective(Xor16(Run16(a, before), High(last)), Xor16(Run16(b, before), High(last)), 8);
      XorInjective16(Run16(a, before), Run16(b, before), High(last));
      RunInjective16(a, b, before);
    }
  }

  function Word16(c: bv16, x: bv8, y: bv8): bv16 { Xor16(Xor16(c, High(x)), y as bv16) }

  function HiByte(c: bv16): bv8 { (c >> 8) as bv8 }

  function LoByte(c: bv16): bv8 { (c & 0xFF) as bv8 }

  /** Two bytes go through the register like one sixteen-bit word. */
  lemma TwoBytes16(c: bv16, x: bv8, y: bv8)
    ensures Run16(c, [x, y]) == Shifts16(Word16(c, x, y), 16)
  {
    hide Shift16, Xor16, High, Shifts16;
    var a := Xor16(c, High(x));
    assert [x, y][..1] == [x] && [x][..0] == [];
    assert Run16(c, []) == c;
    assert Run16(c, [x]) == Shifts16(a, 8);
    assert Run16(c, [x, y]) == Shifts16(Xor16(Shifts16(a, 8), High(y)), 8);
    Shifts16Low(y);
    Shifts16Linear(a, y as bv16, 8);
    Shifts16Add(Xor16(a, y as bv16), 8, 8);
  }

  lemma RawWord16(c: bv16, x: bv8, y: bv8, u: bv8, v: bv8)
    requires (c ^ ((x as bv16) << 8)) ^ (y as bv16) == (c ^ ((u as bv16) << 8)) ^ (v as bv16)
    ensures x == u && y == v
  {
  }

  lemma Word16Injective(c: bv16, x: bv8, y: bv8, u: bv8, v: bv8)
    requires Word16(c, x, y) == Word16(c, u, v)
    ensures x == u && y == v
  {
    RawWord16(c, x, y, u, v);
  }

  lemma TwoBytesInjective16(c: bv16, x: bv8, y: bv8, u: bv8, v: bv8)
    requires Run16(c, [x, y]) == Run16(c, [u, v])
    ensures x == u && y == v
  {
    hide Run16, Shifts16, Word16;
    TwoBytes16(c, x, y);
    TwoBytes16(c, u, v);
    Shifts16Injective(Word16(c, x, y), Word16(c, u, v), 16);
    Word16Injective(c, x, y, u, v);
  }

  /** Equal outside bytes i and i + 1. */
  ghost predicate DifferWithin(a: seq<bv8>, b: seq<bv8>, i: nat, n: nat) {
    |a| == |b| && i + n <= |a| && a[..i] == b[..i] && a[i + n..] == b[i + n..]
  }

  lemma Cut(a: seq<bv8>, i: nat, n: nat)
    requires i + n <= |a|
    ensures a == a[..i] + (a[i..i + n] + a[i + n..])
  {
  }

  /** Whatever happens to two neighbouring bytes, and to nothing else, the CRC-16 sees it. */
  lemma Crc16SeesTwoBytes(a: seq<bv8>, b: seq<bv8>, i: nat)
    requires DifferWithin(a, b, i, 2)
    ensures Crc16(a) == Crc16(b) <==> a == b
  {
    hide Run16;
    if Crc16(a) == Crc16(b) {
      Cut(a, i, 2);
      Cut(b, i, 2);
      var c, post := Run16(0, a[..i]), a[i + 2..];
      RunAppend16(0, a[..i], a[i..i + 2] + post);
      RunAppend16(0, a[..i], b[i..i + 2] + post);
      RunAppend16(c, a[i..i + 2], post);
      RunAppend16(c, b[i..i + 2], post);
      RunInjective16(Run16(c, a[i..i + 2]), Run16(c, b[i..i + 2]), post);
      assert a[i..i + 2] == [a[i], a[i + 1]] && b[i..i + 2] == [b[i], b[i + 1]];
      TwoBytesInjective16(c, a[i], a[i + 1], b[i], b[i + 1]);
    }
  }

  function Swapped(a: seq<bv8>, i: nat): seq<bv8>
    requires i + 1 < |a|
  {
    a[i := a[i + 1]][i + 1 := a[i]]
  }

  /** XorCrc, the control plane's checksum. */
  function Xor8(data: seq<bv8>): bv8 { if data == [] then 0 else Plus8(Xor8(data[..|data| - 1]), data[|data| - 1]) }

  function Plus8(a: bv8, b: bv8): bv8 { a ^ b }

  /** It sees any change of one byte, and of one byte only. */
  lemma {:induction false} Xor8SeesOneByte(a: seq<bv8>, i: nat, x: bv8)
    requires i < |a|
    ensures Xor8(a[i := x]) == Xor8(a) <==> x == a[i]
  {
    hide Plus8;
    var n := |a| - 1;
    if i < n {
      assert a[i := x][..n] == a[..n][i := x];
      Xor8SeesOneByte(a[..n], i, x);
      PlusSame8(Xor8(a[..n][i := x]), Xor8(a[..n]), a[n]);
    } else {
      assert a[i := x][..n] == a[..n];
      PlusOther8(Xor8(a[..n]), x, a[n]);
    }
  }

  lemma PlusSame8(a: bv8, b: bv8, c: bv8)
    ensures Plus8(a, c) == Plus8(b, c) <==> a == b
  {
  }

  lemma PlusOther8(a: bv8, b: bv8, c: bv8)
    ensures Plus8(a, b) == Plus8(a, c) <==> b == c
  {
  }

  lemma {:induction false} Xor8Swapped(a: seq<bv8>, i: nat)
    requires i + 1 < |a|
    ensures Xor8(Swapped(a, i)) == Xor8(a)
  {
    var s, n := Swapped(a, i), |a|;
    if i + 2 < n {
      assert s[..n - 1] == Swapped(a[..n - 1], i);
      Xor8Swapped(a[..n - 1], i);
    } else {
      assert s[..n - 1][..n - 2] == a[..n - 1][..n - 2];
      XorSwap8(Xor8(a[..n - 1][..n - 2]), a[i], a[i + 1]);
    }
  }

  lemma XorSwap8(c: bv8, x: bv8, y: bv8)
    ensures (c ^ x) ^ y == (c ^ y) ^ x
  {
  }

  /** A byte transposition: the streaming CRC always sees it, the control plane's XOR never does. */
  lemma TranspositionSeen(a: seq<bv8>, i: nat)
    requires i + 1 < |a| && a[i] != a[i + 1]
    ensures Crc16(Swapped(a, i)) != Crc16(a) && Xor8(Swapped(a, i)) == Xor8(a)
  {
    var s := Swapped(a, i);
    assert DifferWithin(s, a, i, 2);
    assert s[i] != a[i];
    Crc16SeesTwoBytes(s, a, i);
    Xor8Swapped(a, i);
  }

  lemma RawBytes16(c: bv16)
    ensures (c ^ (((c >> 8) as bv8 as bv16) << 8)) ^ ((c & 0xFF) as bv8 as bv16) == 0
  {
  }

  lemma Bytes16(c: bv16)
    ensures Word16(c, HiByte(c), LoByte(c)) == 0
  {
    RawBytes16(c);
  }

  lemma {:induction false} ShiftsOfZero16(n: nat)
    ensures Shifts16(0, n) == 0
  {
    if n > 0 { ShiftsOfZero16(n - 1); }
  }

  /** The receiver's check: a frame followed by its own CRC, high byte first, leaves the register at zero. */
  lemma FrameLeavesZero(data: seq<bv8>)
    ensures Crc16(data + [HiByte(Crc16(data)), LoByte(Crc16(data))]) == 0
  {
    hide Run16, Shifts16, Word16, HiByte, LoByte;
    var c := Crc16(data);
    Bytes16(c);
    RunAppend16(0, data, [HiByte(c), LoByte(c)]);
    TwoBytes16(c, HiByte(c), LoByte(c));
    ShiftsOfZero16(16);
  }

  /** Crc16Ccitt. */
  method Crc16Ccitt(data: seq<bv8>) returns (crc: bv16)
    ensures crc == Crc16(data)
  {
    hide Shift16, High, Xor16;
    crc := 0;
    for i := 0 to |data|
      invariant crc == Run16(0, data[..i])
    {
      assert data[..i + 1][..i] == data[..i];
      crc := Xor16(crc, High(data[i]));
      ghost var loaded := crc;
      for b := 0 to 8
        invariant crc == Shifts16(loaded, b)
      {
        crc := Shift16(crc);
      }
    }
    assert data[..|data|] == data;
  }
}
