/**
 The upload checksum CRC-32 (section 8 of RFC 1952): wfb_crc32 over a whole buffer and wfb_prog.c's update one
 segment at a time. A change within any four adjacent bytes, such as one float, is always seen: four bytes go through
 the register like one word, a shift step loses nothing, and registers that differ keep differing over equal bytes.
 */
module Crc32 {
  import opened Crc

  function Xor32(a: bv32, b: bv32): bv32 { a ^ b }

  function Half32(c: bv32): bv32 { c >> 1 }

  predicate Low32(c: bv32) { c & 1 != 0 }

  function Shift32(c: bv32): bv32 { if Low32(c) then Xor32(Half32(c), 0xEDB88320) else Half32(c) }

  function Shifts32(c: bv32, n: nat): bv32 { if n == 0 then c else Shift32(Shifts32(c, n - 1)) }

  function Run32(c: bv32, data: seq<bv8>): bv32 {
    if data == [] then c else Shifts32(Xor32(Run32(c, data[..|data| - 1]), data[|data| - 1] as bv32), 8)
  }

  function Crc32Of(data: seq<bv8>): bv32 { Xor32(Run32(0xFFFF_FFFF, data), 0xFFFF_FFFF) }

  // ---------- a shift step is linear and loses nothing ----------

  lemma RawHalf32(a: bv32, b: bv32)
    ensures (a ^ b) >> 1 == (a >> 1) ^ (b >> 1)
  {
  }

  lemma RawLow32(a: bv32, b: bv32)
    ensures (a ^ b) & 1 != 0 <==> (a & 1 != 0) != (b & 1 != 0)
  {
  }

  lemma HalfLinear32(a: bv32, b: bv32)
    ensures Half32(Xor32(a, b)) == Xor32(Half32(a), Half32(b))
  {
    RawHalf32(a, b);
  }

  lemma LowLinear32(a: bv32, b: bv32)
    ensures Low32(Xor32(a, b)) <==> Low32(a) != Low32(b)
  {
    RawLow32(a, b);
  }

  lemma Assoc32(a: bv32, b: bv32, c: bv32)
    ensures Xor32(Xor32(a, b), c) == Xor32(a, Xor32(b, c))
  {
  }

  lemma Commute32(a: bv32, b: bv32)
    ensures Xor32(a, b) == Xor32(b, a)
  {
  }

  lemma RawCancel32(a: bv32, b: bv32)
    requires a ^ b == 0
    ensures a == b
  {
  }

  lemma RawSelf32(a: bv32)
    ensures a ^ a == 0
  {
  }

  lemma Cancel32(a: bv32, b: bv32)
    ensures Xor32(a, b) == 0 <==> a == b
  {
    RawSelf32(a);
    if Xor32(a, b) == 0 { RawCancel32(a, b); }
  }

  lemma Zero32(a: bv32)
    ensures Xor32(a, 0) == a
  {
  }

  lemma Pairs32(a: bv32, b: bv32, c: bv32, d: bv32)
    ensures Xor32(Xor32(a, b), Xor32(c, d)) == Xor32(Xor32(a, c), Xor32(b, d))
  {
    hide Xor32;
    Assoc32(a, b, Xor32(c, d));
    Assoc32(b, c, d);
    Commute32(b, c);
    Assoc32(c, b, d);
    Assoc32(a, c, Xor32(b, d));
  }

  lemma Shift32Linear(a: bv32, b: bv32)
    ensures Shift32(Xor32(a, b)) == Xor32(Shift32(a), Shift32(b))
  {
    hide Low32, Half32, Xor32;
    HalfLinear32(a, b);
    LowLinear32(a, b);
    var x, y, g := Half32(a), Half32(b), 0xEDB88320;
    Zero32(x);
    Zero32(y);
    Zero32(Xor32(x, y));
    Cancel32(g, g);
    Cancel32(0, 0);
    Commute32(g, 0);
    Zero32(g);
    Pairs32(x, if Low32(a) then g else 0, y, if Low32(b) then g else 0);
  }

  /** The generator has an x^32 and an x^0 term, so only zero shifts to zero. */
  lemma Shift32Kernel(c: bv32)
    requires Shift32(c) == 0
    ensures c == 0
  {
    assert (c >> 1) & 0x8000_0000 == 0;
    assert ((c >> 1) ^ 0xEDB88320) & 0x8000_0000 != 0;
    assert c & 1 == 0 && c >> 1 == 0 ==> c == 0;
  }

  lemma {:induction false} Shifts32Linear(a: bv32, b: bv32, n: nat)
    ensures Shifts32(Xor32(a, b), n) == Xor32(Shifts32(a, n), Shifts32(b, n))
  {
    hide Shift32, Xor32;
    if n > 0 {
      Shifts32Linear(a, b, n - 1);
      Shift32Linear(Shifts32(a, n - 1), Shifts32(b, n - 1));
    }
  }

  lemma {:induction false} Shifts32Kernel(c: bv32, n: nat)
    requires Shifts32(c, n) == 0
    ensures c == 0
  {
    hide Shift32;
    if n > 0 {
      Shift32Kernel(Shifts32(c, n - 1));
      Shifts32Kernel(c, n - 1);
    }
  }

  lemma {:induction false} Shifts32Add(c: bv32, n: nat, m: nat)
    ensures Shifts32(Shifts32(c, n), m) == Shifts32(c, n + m)
  {
    hide Shift32;
    if m > 0 { Shifts32Add(c, n, m - 1); }
  }

  lemma Shifts32Injective(a: bv32, b: bv32, n: nat)
    requires Shifts32(a, n) == Shifts32(b, n)
    ensures a == b
  {
    hide Xor32, Shift32, Shifts32;
    Shifts32Linear(a, b, n);
    Cancel32(Shifts32(a, n), Shifts32(b, n));
    Shifts32Kernel(Xor32(a, b), n);
    Cancel32(a, b);
  }

  lemma XorInjective32(a: bv32, b: bv32, c: bv32)
    requires Xor32(a, c) == Xor32(b, c)
    ensures a == b
  {
  }

  // ---------- runs ----------

  lemma {:induction false} RunInjective32(a: bv32, b: bv32, data: seq<bv8>)
    requires Run32(a, data) == Run32(b, data)
    ensures a == b
  {
    hide Shifts32, Xor32;
    if data != [] {
      var last, before := data[|data| - 1] as bv32, data[..|data| - 1];
      Shifts32Injective(Xor32(Run32(a, before), last), Xor32(Run32(b, before), last), 8);
      XorInjective32(Run32(a, before), Run32(b, before), last);
      RunInjective32(a, b, before);
    }
  }

  /** Updating piece by piece is updating by the whole: the program's per-segment CRC is the message's CRC. */
  lemma {:induction false} RunAppend32(c: bv32, a: seq<bv8>, b: seq<bv8>)
    ensures Run32(c, a + b) == Run32(Run32(c, a), b)
  {
    hide Shifts32, Xor32;
    if b == [] {
      assert a + b == a;
    } else {
      assert (a + b)[..|a + b| - 1] == a + b[..|b| - 1];
      RunAppend32(c, a, b[..|b| - 1]);
    }
  }

  // ---------- four bytes as one word ----------

  function Up8(x: bv32): bv32 { x << 8 }

  function Upper(x: bv32, n: nat): bv32
    requires n <= 8
  {
    match n
    case 0 => x case 1 => x << 1 case 2 => x << 2 case 3 => x << 3
    case 4 => x << 4 case 5 => x << 5 case 6 => x << 6 case 7 => x << 7 case _ => x << 8
  }

  lemma RawDown1(x: bv32)
    requires x & 0xFF00_0000 == 0
    ensures (x << 1) & 1 == 0
    ensures (x << 1) >> 1 == x
  {
  }

  lemma Down1(x: bv32)
    requires x & 0xFF00_0000 == 0
    ensures Shift32(Upper(x, 1)) == Upper(x, 0)
  {
    RawDown1(x);
  }

  lemma Down2(x: bv32)
    requires x & 0xFF00_0000 == 0
    ensures Shift32(Upper(x, 2)) == Upper(x, 1)
  {
    assert (x << 2) & 1 == 0 && (x << 2) >> 1 == x << 1;
  }

  lemma Down3(x: bv32)
    requires x & 0xFF00_0000 == 0
    ensures Shift32(Upper(x, 3)) == Upper(x, 2)
  {
    assert (x << 3) & 1 == 0 && (x << 3) >> 1 == x << 2;
  }

  lemma Down4(x: bv32)
    requires x & 0xFF00_0000 == 0
    ensures Shift32(Upper(x, 4)) == Upper(x, 3)
  {
    assert (x << 4) & 1 == 0 && (x << 4) >> 1 == x << 3;
  }

  lemma Down5(x: bv32)
    requires x & 0xFF00_0000 == 0
    ensures Shift32(Upper(x, 5)) == Upper(x, 4)
  {
    assert (x << 5) & 1 == 0 && (x << 5) >> 1 == x << 4;
  }

  lemma Down6(x: bv32)
    requires x & 0xFF00_0000 == 0
    ensures Shift32(Upper(x, 6)) == Upper(x, 5)
  {
    assert (x << 6) & 1 == 0 && (x << 6) >> 1 == x << 5;
  }

  lemma Down7(x: bv32)
    requires x & 0xFF00_0000 == 0
    ensures Shift32(Upper(x, 7)) == Upper(x, 6)
  {
    assert (x << 7) & 1 == 0 && (x << 7) >> 1 == x << 6;
  }

  lemma Down8(x: bv32)
    requires x & 0xFF00_0000 == 0
    ensures Shift32(Upper(x, 8)) == Upper(x, 7)
  {
    assert (x << 8) & 1 == 0 && (x << 8) >> 1 == x << 7;
  }

  lemma EightSteps(c: bv32, c1: bv32, c2: bv32, c3: bv32, c4: bv32, c5: bv32, c6: bv32, c7: bv32, c8: bv32)
    requires Shift32(c) == c1 && Shift32(c1) == c2 && Shift32(c2) == c3 && Shift32(c3) == c4
    requires Shift32(c4) == c5 && Shift32(c5) == c6 && Shift32(c6) == c7 && Shift32(c7) == c8
    ensures Shifts32(c, 8) == c8
  {
    hide Shift32;
    assert Shifts32(c, 1) == Shift32(Shifts32(c, 0));
    assert Shifts32(c, 2) == Shift32(Shifts32(c, 1));
    assert Shifts32(c, 3) == Shift32(Shifts32(c, 2));
    assert Shifts32(c, 4) == Shift32(Shifts32(c, 3));
    assert Shifts32(c, 5) == Shift32(Shifts32(c, 4));
    assert Shifts32(c, 6) == Shift32(Shifts32(c, 5));
    assert Shifts32(c, 7) == Shift32(Shifts32(c, 6));
    assert Shifts32(c, 8) == Shift32(Shifts32(c, 7));
  }

  /** Eight shifts bring a value down by a byte when its lowest byte is clear. */
  lemma Shifts32Up(x: bv32)
    requires x & 0xFF00_0000 == 0
    ensures Shifts32(Up8(x), 8) == x
  {
    hide Shift32, Shifts32;
    assert Upper(x, 8) == Up8(x) && Upper(x, 0) == x;
    Down1(x); Down2(x); Down3(x); Down4(x); Down5(x); Down6(x); Down7(x); Down8(x);
    EightSteps(Upper(x, 8), Upper(x, 7), Upper(x, 6), Upper(x, 5), Upper(x, 4), Upper(x, 3), Upper(x, 2), Upper(x, 1), x);
  }

  /** Byte b, n bytes up. */
  function Placed(b: bv8, n: nat): bv32
    requires n <= 3
  {
    if n == 0 then b as bv32 else Up8(Placed(b, n - 1))
  }

  lemma PlacedSmall(b: bv8, n: nat)
    requires n <= 2
    ensures Placed(b, n) & 0xFF00_0000 == 0
  {
    if n == 1 { assert Placed(b, 0) == b as bv32; }
    if n == 2 { assert Placed(b, 0) == b as bv32; assert Placed(b, 1) == Up8(b as bv32); }
  }

  lemma {:induction false} PlacedDown(b: bv8, n: nat)
    requires n <= 3
    ensures Shifts32(Placed(b, n), 8 * n) == b as bv32
  {
    hide Shift32, Up8;
    if n > 0 {
      PlacedSmall(b, n - 1);
      Shifts32Up(Placed(b, n - 1));
      PlacedDown(b, n - 1);
      Shifts32Add(Placed(b, n), 8, 8 * (n - 1));
    }
  }

  /** The register with up to four bytes folded in. */
  function Folded(c: bv32, w: seq<bv8>): bv32
    requires |w| <= 4
  {
    if w == [] then c else Xor32(Folded(c, w[..|w| - 1]), Placed(w[|w| - 1], |w| - 1))
  }

  lemma {:induction false} WordRun(c: bv32, w: seq<bv8>)
    requires |w| <= 4
    ensures Run32(c, w) == Shifts32(Folded(c, w), 8 * |w|)
  {
    hide Shift32, Xor32, Placed;
    if w != [] {
      var n, b, before := |w| - 1, w[|w| - 1], w[..|w| - 1];
      WordRun(c, before);
      PlacedDown(b, n);
      Shifts32Linear(Folded(c, before), Placed(b, n), 8 * n);
      Shifts32Add(Xor32(Folded(c, before), Placed(b, n)), 8 * n, 8);
    }
  }

  lemma RawWord32(c: bv32, a0: bv32, a1: bv32, a2: bv32, a3: bv32, b0: bv32, b1: bv32, b2: bv32, b3: bv32)
    requires a0 <= 0xFF && a1 <= 0xFF && a2 <= 0xFF && a3 <= 0xFF && b0 <= 0xFF && b1 <= 0xFF && b2 <= 0xFF && b3 <= 0xFF
    requires (((c ^ a0) ^ (a1 << 8)) ^ ((a2 << 8) << 8)) ^ (((a3 << 8) << 8) << 8) ==
             (((c ^ b0) ^ (b1 << 8)) ^ ((b2 << 8) << 8)) ^ (((b3 << 8) << 8) << 8)
    ensures a0 == b0 && a1 == b1 && a2 == b2 && a3 == b3
  {
  }

  lemma Folded4(c: bv32, w: seq<bv8>)
    requires |w| == 4
    ensures Folded(c, w) == Xor32(Xor32(Xor32(Xor32(c, Placed(w[0], 0)), Placed(w[1], 1)), Placed(w[2], 2)), Placed(w[3], 3))
  {
    hide Xor32, Placed;
    var w3, w2, w1 := w[..3], w[..2], w[..1];
    assert w3[..2] == w2 && w2[..1] == w1 && w1[..0] == [];
    assert Folded(c, w1[..0]) == c;
    assert Folded(c, w1) == Xor32(c, Placed(w[0], 0));
    assert Folded(c, w2) == Xor32(Folded(c, w1), Placed(w[1], 1));
    assert Folded(c, w3) == Xor32(Folded(c, w2), Placed(w[2], 2));
  }

  lemma PlacedIs(b: bv8)
    ensures Placed(b, 0) == b as bv32 && Placed(b, 1) == (b as bv32) << 8
    ensures Placed(b, 2) == ((b as bv32) << 8) << 8 && Placed(b, 3) == (((b as bv32) << 8) << 8) << 8
  {
    assert Placed(b, 0) == b as bv32;
    assert Placed(b, 1) == Up8(Placed(b, 0));
    assert Placed(b, 2) == Up8(Placed(b, 1));
    assert Placed(b, 3) == Up8(Placed(b, 2));
  }

  lemma Byte32(x: bv8, y: bv8)
    ensures x as bv32 <= 0xFF && (x as bv32 == y as bv32 ==> x == y)
  {
  }

  function Word32(c: bv32, a0: bv32, a1: bv32, a2: bv32, a3: bv32): bv32 {
    (((c ^ a0) ^ (a1 << 8)) ^ ((a2 << 8) << 8)) ^ (((a3 << 8) << 8) << 8)
  }

  lemma FoldedIsWord(c: bv32, w: seq<bv8>)
    requires |w| == 4
    ensures Folded(c, w) == Word32(c, w[0] as bv32, w[1] as bv32, w[2] as bv32, w[3] as bv32)
  {
    hide Folded, Placed;
    Folded4(c, w);
    PlacedIs(w[0]); PlacedIs(w[1]); PlacedIs(w[2]); PlacedIs(w[3]);
  }

  lemma WordInjective(c: bv32, a0: bv32, a1: bv32, a2: bv32, a3: bv32, b0: bv32, b1: bv32, b2: bv32, b3: bv32)
    requires a0 <= 0xFF && a1 <= 0xFF && a2 <= 0xFF && a3 <= 0xFF && b0 <= 0xFF && b1 <= 0xFF && b2 <= 0xFF && b3 <= 0xFF
    requires Word32(c, a0, a1, a2, a3) == Word32(c, b0, b1, b2, b3)
    ensures a0 == b0 && a1 == b1 && a2 == b2 && a3 == b3
  {
    RawWord32(c, a0, a1, a2, a3, b0, b1, b2, b3);
  }

  lemma FoldedInjective(c: bv32, v: seq<bv8>, w: seq<bv8>)
    requires |v| == |w| == 4 && Folded(c, v) == Folded(c, w)
    ensures v == w
  {
    hide Folded, Word32;
    FoldedIsWord(c, v);
    FoldedIsWord(c, w);
    Byte32(v[0], w[0]); Byte32(v[1], w[1]); Byte32(v[2], w[2]); Byte32(v[3], w[3]);
    Byte32(w[0], v[0]); Byte32(w[1], v[1]); Byte32(w[2], v[2]); Byte32(w[3], v[3]);
    WordInjective(c, v[0] as bv32, v[1] as bv32, v[2] as bv32, v[3] as bv32, w[0] as bv32, w[1] as bv32, w[2] as bv32, w[3] as bv32);
  }

  /** Whatever happens to four adjacent bytes, and to nothing else, the CRC-32 sees it. */
  lemma Crc32SeesFourBytes(a: seq<bv8>, b: seq<bv8>, i: nat)
    requires DifferWithin(a, b, i, 4)
    ensures Crc32Of(a) == Crc32Of(b) <==> a == b
  {
    hide Run32, Xor32, Folded, Shifts32;
    if Crc32Of(a) == Crc32Of(b) {
      var s: bv32 := 0xFFFF_FFFF;
      XorInjective32(Run32(s, a), Run32(s, b), s);
      Cut(a, i, 4);
      Cut(b, i, 4);
      var c, va, vb, post := Run32(s, a[..i]), a[i..i + 4], b[i..i + 4], a[i + 4..];
      RunAppend32(s, a[..i], va + post);
      RunAppend32(s, a[..i], vb + post);
      RunAppend32(c, va, post);
      RunAppend32(c, vb, post);
      RunInjective32(Run32(c, va), Run32(c, vb), post);
      WordRun(c, va);
      WordRun(c, vb);
      Shifts32Injective(Folded(c, va), Folded(c, vb), 32);
      FoldedInjective(c, va, vb);
    }
  }

  /** wfb_prog_crc_update. */
  method CrcUpdate(start: bv32, data: seq<bv8>) returns (crc: bv32)
    ensures crc == Run32(start, data)
  {
    hide Shift32, Xor32;
    crc := start;
    for i := 0 to |data|
      invariant crc == Run32(start, data[..i])
    {
      assert data[..i + 1][..i] == data[..i];
      crc := Xor32(crc, data[i] as bv32);
      ghost var loaded := crc;
      for j := 0 to 8
        invariant crc == Shifts32(loaded, j)
      {
        crc := Shift32(crc);
      }
    }
    assert data[..|data|] == data;
  }

  /** wfb_crc32. */
  method WholeCrc(data: seq<bv8>) returns (crc: bv32)
    ensures crc == Crc32Of(data)
  {
    hide Run32, Xor32;
    var c := CrcUpdate(0xFFFF_FFFF, data);
    crc := Xor32(c, 0xFFFF_FFFF);
  }

  /** What wfb_prog_on_cmd's PUSH does to crc_calc, segment after segment. */
  function Pushed(segments: seq<seq<bv8>>): bv32 {
    if segments == [] then 0xFFFF_FFFF else Run32(Pushed(segments[..|segments| - 1]), segments[|segments| - 1])
  }

  function Message(segments: seq<seq<bv8>>): seq<bv8> {
    if segments == [] then [] else Message(segments[..|segments| - 1]) + segments[|segments| - 1]
  }

  /** The program's running CRC, finished at COMMIT, is the CRC-32 of all its segments as one message. */
  lemma {:induction false} SegmentsAreMessage(segments: seq<seq<bv8>>)
    ensures Pushed(segments) == Run32(0xFFFF_FFFF, Message(segments))
    ensures Xor32(Pushed(segments), 0xFFFF_FFFF) == Crc32Of(Message(segments))
  {
    hide Shifts32, Xor32;
    if segments != [] {
      SegmentsAreMessage(segments[..|segments| - 1]);
      RunAppend32(0xFFFF_FFFF, Message(segments[..|segments| - 1]), segments[|segments| - 1]);
    }
  }
}
