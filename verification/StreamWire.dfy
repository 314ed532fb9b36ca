/**
 The two frames of streaming telemetry as API/subscribe.h lays them out for the host: what a host that follows that
 layout sends is understood, and what it is sent it can read back.
 */
module StreamWire {
  import opened Crc
  import opened Subscribe

  // ---------- little-endian numbers ----------

  function Low(v: nat): bv8 { (v % 256) as bv8 }

  /** n bytes, the lowest first. */
  function LeBytes(v: nat, n: nat): (b: seq<bv8>)
    ensures |b| == n
  {
    if n == 0 then [] else [Low(v)] + LeBytes(v / 256, n - 1)
  }

  function Value(x: bv8): nat { x as nat }

  lemma LowValue(v: nat)
    ensures Value(Low(v)) == v % 256
  {
    NotAbove(v % 256);
    NotBelow(v % 256);
  }

  type Octet = x: int | 0 <= x < 256 witness 0

  lemma NotAbove(x: Octet)
    ensures (x as bv8) as int <= x
  {
  }

  lemma NotBelow(x: Octet)
    ensures (x as bv8) as int >= x
  {
  }

  function LeValue(b: seq<bv8>): nat { if b == [] then 0 else Value(b[0]) + 256 * LeValue(b[1..]) }

  lemma {:induction false} LeRoundTrip(v: nat, n: nat)
    requires v < Pow256(n)
    ensures LeValue(LeBytes(v, n)) == v
  {
    hide Value, Low;
    if n > 0 {
      LeRoundTrip(v / 256, n - 1);
      LowValue(v);
      assert LeBytes(v, n)[1..] == LeBytes(v / 256, n - 1);
    }
  }

  /** The parser's word is the number of its bytes. */
  lemma {:induction false} WordIs(buf: seq<bv8>, at: nat, n: nat)
    requires at + n <= |buf|
    ensures Word(buf, at, n) == LeValue(buf[at..at + n])
  {
    if n > 0 {
      WordIs(buf, at, n - 1);
      assert buf[at..at + n] == buf[at..at + (n - 1)] + [buf[at + n - 1]];
      LeAppend(buf[at..at + (n - 1)], buf[at + n - 1]);
    }
  }

  lemma {:induction false} LeAppend(b: seq<bv8>, x: bv8)
    ensures LeValue(b + [x]) == LeValue(b) + Value(x) * Pow256(|b|)
  {
    hide Value, LeValue, Pow256;
    if b == [] {
      LeOne(x);
    } else {
      LeAppend(b[1..], x);
      assert (b + [x])[1..] == b[1..] + [x];
      LeMore(b);
      LeMore(b + [x]);
      Shifted(Value(x), Pow256(|b| - 1), Pow256(|b|)) by { PowMore(|b|); }
    }
  }

  lemma LeOne(x: bv8)
    ensures LeValue([x]) == Value(x) && LeValue([]) == 0 && Pow256(0) == 1 && [] + [x] == [x]
  {
    assert [x][1..] == [];
  }

  lemma LeMore(b: seq<bv8>)
    requires b != []
    ensures LeValue(b) == Value(b[0]) + 256 * LeValue(b[1..])
  {
  }

  lemma PowMore(n: nat)
    requires n > 0
    ensures Pow256(n) == 256 * Pow256(n - 1)
  {
  }

  lemma Shifted(x: nat, p: nat, q: nat)
    requires q == 256 * p
    ensures 256 * (x * p) == x * q
  {
  }

  // ---------- the request ----------

  function AskRange(r: Range): (b: seq<bv8>)
    ensures |b| == 8
  {
    LeBytes(r.address, 4) + LeBytes(r.size, 2) + LeBytes(r.count, 2)
  }

  function AskRanges(rs: seq<Range>): (b: seq<bv8>)
    ensures |b| == 8 * |rs|
  {
    if rs == [] then [] else AskRanges(rs[..|rs| - 1]) + AskRange(rs[|rs| - 1])
  }

  /** What the host asks for, and the fields fit their widths. */
  datatype Order = Order(divider: nat, transport: nat, slot: nat, ranges: seq<Range>)

  predicate Fits(o: Order) {
    o.divider < 256 && o.transport < 256 && o.slot < 256 && |o.ranges| <= MAX_RANGES &&
    forall i :: 0 <= i < |o.ranges| ==> o.ranges[i].address < 0x1_0000_0000 && o.ranges[i].size < 0x1_0000 && o.ranges[i].count < 0x1_0000
  }

  /** The request frame: command, length, configuration, ranges, and the XOR of them all. */
  function AskBody(o: Order): seq<bv8> {
    var len := 3 + 8 * |o.ranges|;
    [0x21, Low(len / 256), Low(len), Low(|o.ranges|), Low(o.divider), Low(o.transport), Low(o.slot)] + AskRanges(o.ranges)
  }

  function Ask(o: Order): seq<bv8> { [0xCC, 0xDE] + AskBody(o) + [Xor8(AskBody(o))] }

  lemma {:induction false} AskRangesAt(rs: seq<Range>, i: nat)
    requires i < |rs|
    ensures AskRanges(rs)[8 * i..8 * i + 8] == AskRange(rs[i])
  {
    var before, last := rs[..|rs| - 1], rs[|rs| - 1];
    if i < |rs| - 1 {
      AskRangesAt(before, i);
      assert AskRanges(rs)[8 * i..8 * i + 8] == AskRanges(before)[8 * i..8 * i + 8];
    } else {
      assert AskRanges(rs)[8 * i..8 * i + 8] == AskRange(last);
    }
  }

  /** The i-th range arrives as it was sent. */
  lemma RangeArrives(o: Order, i: nat)
    requires Fits(o) && i < |o.ranges|
    ensures |Ask(o)| == 10 + 8 * |o.ranges| && RangeAt(Ask(o), i) == o.ranges[i]
  {
    hide AskRange, Word, LeBytes, LeValue, Xor8, Low, Pow256;
    var buf, r := Ask(o), o.ranges[i];
    AskRangesAt(o.ranges, i);
    assert buf[9 + 8 * i..17 + 8 * i] == AskRange(r) by { Inside(o, i); }
    Parts(buf, 9 + 8 * i, r);
    WordIs(buf, 9 + 8 * i, 4);
    WordIs(buf, 13 + 8 * i, 2);
    WordIs(buf, 15 + 8 * i, 2);
    Widths();
    LeRoundTrip(r.address, 4);
    LeRoundTrip(r.size, 2);
    LeRoundTrip(r.count, 2);
  }

  lemma Inside(o: Order, i: nat)
    requires i < |o.ranges|
    ensures |Ask(o)| == 10 + 8 * |o.ranges| && Ask(o)[9 + 8 * i..17 + 8 * i] == AskRanges(o.ranges)[8 * i..8 * i + 8]
  {
    hide AskRanges, Xor8, Low;
    assert Ask(o)[9..9 + 8 * |o.ranges|] == AskRanges(o.ranges);
    assert Ask(o)[9 + 8 * i..17 + 8 * i] == Ask(o)[9..9 + 8 * |o.ranges|][8 * i..8 * i + 8];
  }

  lemma Parts(buf: seq<bv8>, at: nat, r: Range)
    requires at + 8 <= |buf| && buf[at..at + 8] == AskRange(r)
    ensures buf[at..at + 4] == LeBytes(r.address, 4) && buf[at + 4..at + 6] == LeBytes(r.size, 2) && buf[at + 6..at + 8] == LeBytes(r.count, 2)
  {
    hide LeBytes;
    var b := AskRange(r);
    Slice(buf, at, 0, 4);
    Slice(buf, at, 4, 6);
    Slice(buf, at, 6, 8);
    assert b[..4] == LeBytes(r.address, 4) && b[4..6] == LeBytes(r.size, 2) && b[6..8] == LeBytes(r.count, 2);
  }

  lemma Slice(buf: seq<bv8>, at: nat, i: nat, j: nat)
    requires i <= j <= 8 && at + 8 <= |buf|
    ensures buf[at..at + 8][i..j] == buf[at + i..at + j]
  {
    var b, c := buf[at..at + 8][i..j], buf[at + i..at + j];
    forall k | 0 <= k < j - i ensures b[k] == c[k] { assert buf[at..at + 8][i + k] == buf[at + (i + k)]; }
    assert |b| == |c|;
  }

  lemma Widths()
    ensures Pow256(2) == 0x1_0000 && Pow256(4) == 0x1_0000_0000
  {
  }

  /** The range loop accepts just the readable ranges that fit a frame together. */
  lemma {:induction false} RangesArrive(o: Order, n: nat)
    requires Fits(o) && n <= |o.ranges|
    ensures |Ask(o)| == 10 + 8 * |o.ranges|
    ensures var r := Ranges(Ask(o), n);
      (r.Ok? <==> (forall i :: 0 <= i < n ==> Readable(o.ranges[i])) && Total(o.ranges[..n]) <= MAX_BYTES) &&
      (r.Ok? ==> r.value == o.ranges[..n])
  {
    hide Ask, Readable, Span, CheckRange, RangeAt, Total, Ranges;
    AskLength(o);
    if n == 0 { RangesNone(Ask(o)); assert o.ranges[..0] == []; } else {
      RangesArrive(o, n - 1);
      RangeArrives(o, n - 1);
      CheckIsReadable(o.ranges[n - 1]);
      assert o.ranges[..n] == o.ranges[..n - 1] + [o.ranges[n - 1]];
      TotalStep(o.ranges[..n - 1], o.ranges[n - 1]);
      if Ranges(Ask(o), n - 1).Ok? { RangesStep(Ask(o), n - 1, o.ranges[..n - 1]); } else { RangesStayBad(Ask(o), n - 1, n); }
    }
  }

  lemma AskLength(o: Order)
    ensures |Ask(o)| == 10 + 8 * |o.ranges|
  {
    hide AskRanges, Xor8, Low;
  }

  /** An order the flight controller can take on: a slot it has, a link it has, and ranges it can read and send. */
  ghost predicate Takes(o: Order, uart5: bool) {
    o.slot < SLOTS && (o.transport == USART3 || (o.transport == UART5 && uart5)) && o.ranges != [] &&
    (forall i :: 0 <= i < |o.ranges| ==> Readable(o.ranges[i])) && Total(o.ranges) <= MAX_BYTES
  }

  ghost function Ordered(o: Order): Stream { Stream(true, o.divider, o.transport, o.slot, o.ranges, Total(o.ranges), 0, 0, false) }

  /** A host that follows the layout is understood: a stop stops the slot, and a stream is set up as ordered if and only
      if the flight controller can take it on and its link has room for it. */
  lemma OrderUnderstood(o: Order, uart5: bool, other5: nat, other3: nat)
    requires Fits(o)
    ensures var r := Parse(Ask(o), uart5, other5, other3);
      if o.divider == 0 then r == (if o.slot < SLOTS then Ok(OFF.(slot := o.slot)) else Err(BadSlot))
      else
        (r.Ok? <==> Takes(o, uart5) && Bps(Ordered(o)) + (if o.transport == USART3 then other3 else other5) <= Budget(o.transport)) &&
        (r.Ok? ==> r.value == Ordered(o))
  {
    hide Ask, Bps, Budget, Readable, Total, Ranges, Admit, Fits;
    ReachesAdmission(o, uart5, other5, other3);
    RangesArrive(o, |o.ranges|);
    assert o.ranges[..|o.ranges|] == o.ranges;
    Admitted(o, uart5, other5, other3);
  }

  /** The envelope is in order, so the fields are looked at. */
  lemma ReachesAdmission(o: Order, uart5: bool, other5: nat, other3: nat)
    requires Fits(o)
    ensures |Ask(o)| == 10 + 8 * |o.ranges| && Parse(Ask(o), uart5, other5, other3) == Admit(Ask(o), |o.ranges|, uart5, other5, other3)
    ensures Ask(o)[6] as nat == o.divider && Ask(o)[7] as nat == o.transport && Ask(o)[8] as nat == o.slot
  {
    hide Admit, AskRanges, Xor8, Low;
    var n := |o.ranges|;
    LengthBytes(3 + 8 * n);
    LowSmall(n);
    LowSmall(o.divider);
    LowSmall(o.transport);
    LowSmall(o.slot);
    Envelope(o);
    ParseReaches(Ask(o), n, uart5, other5, other3);
  }

  lemma Envelope(o: Order)
    ensures var buf, body, n := Ask(o), AskBody(o), |o.ranges|;
      |buf| == 10 + 8 * n && |body| == 7 + 8 * n && buf[0] == 0xCC && buf[1] == 0xDE && buf[2..9 + 8 * n] == body && buf[9 + 8 * n] == Xor8(body) &&
      buf[2] == 0x21 && buf[3] == Low((3 + 8 * n) / 256) && buf[4] == Low(3 + 8 * n) && buf[5] == Low(n) && buf[6] == Low(o.divider) &&
      buf[7] == Low(o.transport) && buf[8] == Low(o.slot)
  {
    hide AskRanges, Xor8, Low;
  }

  lemma ParseReaches(buf: seq<bv8>, n: nat, uart5: bool, other5: nat, other3: nat)
    requires |buf| == 10 + 8 * n && n <= MAX_RANGES && buf[0] == 0xCC && buf[1] == 0xDE && buf[2] == 0x21
    requires (buf[3] as nat) * 256 + (buf[4] as nat) == 3 + 8 * n && buf[5] as nat == n && Xor8(buf[2..9 + 8 * n]) == buf[9 + 8 * n]
    ensures Parse(buf, uart5, other5, other3) == Admit(buf, n, uart5, other5, other3)
  {
    hide Admit, Xor8;
    assert 6 + (3 + 8 * n) == 9 + 8 * n && (3 + 8 * n - 3) % 8 == 0;
  }

  lemma LowSmall(v: nat)
    requires v < 256
    ensures Low(v) as nat == v
  {
    hide Low;
    LowValue(v);
  }

  lemma LengthBytes(len: nat)
    requires len < 0x1_0000
    ensures (Low(len / 256) as nat) * 256 + (Low(len) as nat) == len
  {
    LowSmall(len / 256);
    LowValue(len);
  }

  lemma Admitted(o: Order, uart5: bool, other5: nat, other3: nat)
    requires |Ask(o)| == 10 + 8 * |o.ranges|
    requires Ask(o)[6] as nat == o.divider && Ask(o)[7] as nat == o.transport && Ask(o)[8] as nat == o.slot
    requires var r := Ranges(Ask(o), |o.ranges|);
      (r.Ok? <==> (forall i :: 0 <= i < |o.ranges| ==> Readable(o.ranges[i])) && Total(o.ranges) <= MAX_BYTES) &&
      (r.Ok? ==> r.value == o.ranges)
    ensures var r := Admit(Ask(o), |o.ranges|, uart5, other5, other3);
      if o.divider == 0 then r == (if o.slot < SLOTS then Ok(OFF.(slot := o.slot)) else Err(BadSlot))
      else
        (r.Ok? <==> Takes(o, uart5) && Bps(Ordered(o)) + (if o.transport == USART3 then other3 else other5) <= Budget(o.transport)) &&
        (r.Ok? ==> r.value == Ordered(o))
  {
    hide Ask, Bps, Budget, Readable, Total, Ranges;
  }

  /** And nobody else is listened to: whatever is accepted begins with the frame of an order, to the last byte. */
  lemma OnlyOrders(buf: seq<bv8>, uart5: bool, other5: nat, other3: nat) returns (o: Order)
    requires Parse(buf, uart5, other5, other3).Ok?
    ensures Fits(o) && |Ask(o)| <= |buf| && buf[..|Ask(o)|] == Ask(o)
  {
    hide Parse, Xor8, RangeAt, AskRanges, Low, Value, RangesOf, Ask, RangesFit;
    EnvelopeBack(buf, uart5, other5, other3);
    var n := Value(buf[5]);
    o := Order(Value(buf[6]), Value(buf[7]), Value(buf[8]), RangesOf(buf, n));
    RangesBack(buf, n);
    LowBack(buf[5]);
    LowBack(buf[6]);
    LowBack(buf[7]);
    LowBack(buf[8]);
    LengthBack(buf[3], buf[4], 3 + 8 * n);
    BodyBack(buf, o);
    FitsOnce(o);
  }

  ghost predicate RangesFit(rs: seq<Range>) {
    forall i :: 0 <= i < |rs| ==> rs[i].address < 0x1_0000_0000 && rs[i].size < 0x1_0000 && rs[i].count < 0x1_0000
  }

  lemma FitsOnce(o: Order)
    requires o.divider < 256 && o.transport < 256 && o.slot < 256 && |o.ranges| <= MAX_RANGES && RangesFit(o.ranges)
    ensures Fits(o)
  {
  }

  lemma EnvelopeBack(buf: seq<bv8>, uart5: bool, other5: nat, other3: nat)
    requires Parse(buf, uart5, other5, other3).Ok?
    ensures |buf| >= 10 && var n := Value(buf[5]);
      n <= MAX_RANGES && |buf| >= 10 + 8 * n && buf[0] == 0xCC && buf[1] == 0xDE && buf[2] == 0x21 &&
      Value(buf[3]) * 256 + Value(buf[4]) == 3 + 8 * n && Xor8(buf[2..9 + 8 * n]) == buf[9 + 8 * n]
    ensures Value(buf[6]) < 256 && Value(buf[7]) < 256 && Value(buf[8]) < 256
  {
    hide Admit, Xor8;
    ByteBelow(buf[6]);
    ByteBelow(buf[7]);
    ByteBelow(buf[8]);
  }

  /** The first n ranges of a frame. */
  function RangesOf(buf: seq<bv8>, n: nat): (rs: seq<Range>)
    requires 9 + 8 * n <= |buf|
    ensures |rs| == n
  {
    if n == 0 then [] else RangesOf(buf, n - 1) + [RangeAt(buf, n - 1)]
  }

  lemma BodyBack(buf: seq<bv8>, o: Order)
    requires var n := |o.ranges|;
      |buf| >= 10 + 8 * n && buf[0] == 0xCC && buf[1] == 0xDE && buf[2] == 0x21 && buf[3] == Low((3 + 8 * n) / 256) &&
      buf[4] == Low(3 + 8 * n) && buf[5] == Low(n) && buf[6] == Low(o.divider) && buf[7] == Low(o.transport) && buf[8] == Low(o.slot) &&
      buf[9..9 + 8 * n] == AskRanges(o.ranges) && Xor8(buf[2..9 + 8 * n]) == buf[9 + 8 * n]
    ensures |Ask(o)| == 10 + 8 * |o.ranges| && buf[..|Ask(o)|] == Ask(o)
  {
    hide Xor8, Low, AskRanges;
    var n := |o.ranges|;
    assert buf[2..9 + 8 * n] == AskBody(o) by {
      assert buf[2..9 + 8 * n] == buf[2..9] + buf[9..9 + 8 * n];
      assert buf[2..9] == [buf[2], buf[3], buf[4], buf[5], buf[6], buf[7], buf[8]];
    }
    assert buf[..10 + 8 * n] == buf[..2] + buf[2..9 + 8 * n] + [buf[9 + 8 * n]];
    assert buf[..2] == [buf[0], buf[1]];
  }

  lemma LowBack(x: bv8)
    ensures Low(Value(x)) == x
  {
    hide Low, Value;
    ByteBelow(x);
    LowByte(x, Value(x));
  }

  lemma LowByte(x: bv8, v: nat)
    requires v % 256 == Value(x)
    ensures Low(v) == x
  {
    LowValue(v);
    SameByte(Low(v), x);
  }

  lemma SameByte(x: bv8, y: bv8)
    requires Value(x) == Value(y)
    ensures x == y
  {
  }

  lemma LengthBack(hi: bv8, lo: bv8, len: nat)
    requires Value(hi) * 256 + Value(lo) == len
    ensures hi == Low(len / 256) && lo == Low(len)
  {
    hide Low, Value;
    ByteBelow(hi);
    ByteBelow(lo);
    LowByte(lo, len);
    LowByte(hi, len / 256);
  }

  lemma {:induction false} LeBack(b: seq<bv8>)
    ensures LeBytes(LeValue(b), |b|) == b
  {
    hide Low, Value;
    if b != [] {
      LeMore(b);
      LeBack(b[1..]);
      var r := LeValue(b[1..]);
      ByteFirst(b[0], r);
      assert b == [b[0]] + b[1..];
    }
  }

  lemma ByteFirst(x: bv8, r: nat)
    ensures Low(Value(x) + 256 * r) == x && (Value(x) + 256 * r) / 256 == r
  {
    hide Low, Value;
    ByteBelow(x);
    LowByte(x, Value(x) + 256 * r);
  }

  lemma {:induction false} LeBelow(b: seq<bv8>)
    ensures LeValue(b) < Pow256(|b|)
  {
    hide Value;
    if b != [] {
      LeBelow(b[1..]);
      ByteBelow(b[0]);
    }
  }

  lemma ByteBelow(x: bv8)
    ensures Value(x) < 256
  {
  }

  lemma RangeFits(buf: seq<bv8>, i: nat)
    requires 17 + 8 * i <= |buf|
    ensures var r := RangeAt(buf, i); r.address < 0x1_0000_0000 && r.size < 0x1_0000 && r.count < 0x1_0000
    ensures AskRange(RangeAt(buf, i)) == buf[9 + 8 * i..17 + 8 * i]
  {
    hide Word, LeBytes, LeValue, Pow256;
    Widths();
    WordIs(buf, 9 + 8 * i, 4);
    WordIs(buf, 13 + 8 * i, 2);
    WordIs(buf, 15 + 8 * i, 2);
    LeBelow(buf[9 + 8 * i..13 + 8 * i]);
    LeBelow(buf[13 + 8 * i..15 + 8 * i]);
    LeBelow(buf[15 + 8 * i..17 + 8 * i]);
    LeBack(buf[9 + 8 * i..13 + 8 * i]);
    LeBack(buf[13 + 8 * i..15 + 8 * i]);
    LeBack(buf[15 + 8 * i..17 + 8 * i]);
    assert buf[9 + 8 * i..17 + 8 * i] == buf[9 + 8 * i..13 + 8 * i] + buf[13 + 8 * i..15 + 8 * i] + buf[15 + 8 * i..17 + 8 * i];
  }

  lemma {:induction false} RangesBack(buf: seq<bv8>, n: nat)
    requires 9 + 8 * n <= |buf|
    ensures AskRanges(RangesOf(buf, n)) == buf[9..9 + 8 * n] && RangesFit(RangesOf(buf, n))
  {
    hide AskRange, RangeAt, AskRanges, RangesFit;
    if n > 0 {
      RangesBack(buf, n - 1);
      RangeFits(buf, n - 1);
      OneMoreRange(RangesOf(buf, n - 1), RangeAt(buf, n - 1));
      assert buf[9..9 + 8 * n] == buf[9..9 + 8 * (n - 1)] + buf[9 + 8 * (n - 1)..17 + 8 * (n - 1)];
    } else {
      NoRanges();
    }
  }

  lemma NoRanges()
    ensures AskRanges([]) == [] && RangesFit([])
  {
  }

  lemma OneMoreRange(rs: seq<Range>, r: Range)
    ensures AskRanges(rs + [r]) == AskRanges(rs) + AskRange(r)
    ensures RangesFit(rs) && r.address < 0x1_0000_0000 && r.size < 0x1_0000 && r.count < 0x1_0000 ==> RangesFit(rs + [r])
  {
    hide AskRange;
    assert (rs + [r])[..|rs|] == rs;
  }

  // ---------- the data frame ----------

  /** What a host reads out of a data frame. */
  datatype Sample = Sample(slot: nat, seqNo: nat, ms: nat, values: seq<bv8>)

  /** The host's reader: sync, frame type, big-endian length, a CRC that leaves zero, counter, time and values. */
  function Read(frame: seq<bv8>): Result<Sample> {
    if |frame| < OVERHEAD || frame[0] != 0xAA || frame[1] != 0xBB then Err(BadSync)
    else if !(0x09 <= Value(frame[2]) < 0x09 + SLOTS) then Err(BadCmd)
    else if Value(frame[3]) * 256 + Value(frame[4]) + 8 != |frame| then Err(BadLen)
    else if Crc16(frame[2..]) != 0 then Err(BadCrc)
    else Ok(Sample(Value(frame[2]) - 0x09, Value(frame[5]), LeValue(frame[6..10]), frame[10..|frame| - 2]))
  }

  /** What is sent can be read back: slot, counter, time and values. */
  lemma FrameRoundTrip(s: Stream, ms: nat, mem: nat -> bv8)
    requires GoodStream(s, s.slot) && s.slot < SLOTS && ms < 0x1_0000_0000
    ensures Read(Frame(s, ms, mem)) == Ok(Sample(s.slot, s.seqNo, ms, Payload(mem, s.ranges)))
  {
    hide Crc16, HiByte, LoByte, Payload, Readable, Byte, Value, LeValue, Total;
    FrameFits(s, s.slot, ms, mem);
    var f := Frame(s, ms, mem);
    ByteIs(0x09 + s.slot);
    ByteIs(s.seqNo);
    LengthIs(4 + s.total);
    TimeIs(ms);
    assert f[6..10] == [Byte(ms, 0), Byte(ms, 1), Byte(ms, 2), Byte(ms, 3)];
    assert f[10..|f| - 2] == Payload(mem, s.ranges);
  }

  /** The sender's bytes, counted from the lowest. */
  lemma BytesAreLow(v: nat)
    ensures Byte(v, 0) == Low(v) && Byte(v, 1) == Low(v / 256) && Byte(v, 2) == Low(v / 256 / 256) && Byte(v, 3) == Low(v / 256 / 256 / 256)
  {
    Quotients(v);
  }

  lemma Quotients(v: nat)
    ensures v / Pow256(0) == v && v / Pow256(1) == v / 256 && v / Pow256(2) == v / 256 / 256 && v / Pow256(3) == v / 256 / 256 / 256
  {
  }

  lemma ByteIs(v: nat)
    requires v < 256
    ensures Value(Byte(v, 0)) == v
  {
    hide Byte, Low, Value;
    BytesAreLow(v);
    LowValue(v);
  }

  lemma LengthIs(v: nat)
    requires v < 0x1_0000
    ensures Value(Byte(v, 1)) * 256 + Value(Byte(v, 0)) == v
  {
    hide Byte, Low, Value;
    BytesAreLow(v);
    LowValue(v);
    LowValue(v / 256);
  }

  lemma TimeIs(ms: nat)
    requires ms < 0x1_0000_0000
    ensures LeValue([Byte(ms, 0), Byte(ms, 1), Byte(ms, 2), Byte(ms, 3)]) == ms
  {
    hide Byte, Low, Value, LeValue;
    BytesAreLow(ms);
    assert LeBytes(ms, 4) == [Low(ms)] + LeBytes(ms / 256, 3);
    assert LeBytes(ms / 256, 3) == [Low(ms / 256)] + LeBytes(ms / 256 / 256, 2);
    assert LeBytes(ms / 256 / 256, 2) == [Low(ms / 256 / 256)] + LeBytes(ms / 256 / 256 / 256, 1);
    assert LeBytes(ms / 256 / 256 / 256, 1) == [Low(ms / 256 / 256 / 256)];
    assert LeBytes(ms, 4) == [Byte(ms, 0), Byte(ms, 1), Byte(ms, 2), Byte(ms, 3)];
    Widths();
    LeRoundTrip(ms, 4);
  }

  /** The k-th byte of the i-th range is the byte of memory at its address, after the ranges before it. */
  lemma {:induction false} PayloadAt(mem: nat -> bv8, rs: seq<Range>, i: nat, k: nat)
    requires i < |rs| && k < rs[i].size * rs[i].count
    ensures var at := Total(rs[..i]) + k; at < |Payload(mem, rs)| && Payload(mem, rs)[at] == mem(rs[i].address + k)
  {
    var before := rs[..|rs| - 1];
    if i < |rs| - 1 {
      PayloadAt(mem, before, i, k);
      assert before[..i] == rs[..i];
    }
  }
}
