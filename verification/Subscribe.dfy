/**
 API/subscribe.c: streaming telemetry. A 0x21 request is parsed and admitted against the budget of its link; every
 paced tick then serves the slots that came due. Error strings are reasons here.
 */
module Subscribe {
  import opened Crc

  const SLOTS := 4
  const MAX_RANGES := 62
  const MAX_BYTES := 2032
  const OVERHEAD := 12
  const HZ := 100
  const TICK_MIN_MS := 8
  const UART5 := 0
  const USART3 := 1
  const SRAM_LO := 0x2000_0000
  const SRAM_HI := 0x2001_FFFF
  const CCM_LO := 0x1000_0000
  const CCM_HI := 0x1000_FFFF

  datatype Reason =
    | BadSize | Unaligned | Outside | CrossesEnd | ZeroCount | Truncated | BadSync | BadCmd | BadLen | TooManyRanges
    | LenVsCount | BadCrc | BadSlot | BadTransport | Uart5Off | NoRanges | TooLarge | OverBudget

  datatype Range = Range(address: nat, size: nat, count: nat)

  datatype Stream = Stream(active: bool, divider: nat, transport: nat, slot: nat, ranges: seq<Range>, total: nat,
                           seqNo: nat, phase: nat, due: bool)

  datatype Result<T> = Ok(value: T) | Err(why: Reason)

  const OFF := Stream(false, 0, UART5, 0, [], 0, 0, 0, false)

  // ---------- ranges ----------

  function Span(r: Range): nat { r.size * r.count }

  predicate InSram(a: nat) { SRAM_LO <= a <= SRAM_HI }

  predicate InCcm(a: nat) { CCM_LO <= a <= CCM_HI }

  /** Subscribe_ValidateTuple, then Subscribe_ValidateRange's own checks. */
  function CheckRange(r: Range): Result<nat> {
    if r.count == 0 then Err(ZeroCount)
    else if r.size != 1 && r.size != 2 && r.size != 4 then Err(BadSize)
    else if r.address % r.size != 0 then Err(Unaligned)
    else if !InSram(r.address) && !InCcm(r.address) then Err(Outside)
    else if InSram(r.address) && r.address + r.size - 1 > SRAM_HI then Err(CrossesEnd)
    else if InCcm(r.address) && r.address + r.size - 1 > CCM_HI then Err(CrossesEnd)
    else if InSram(r.address) && r.address + Span(r) - 1 > SRAM_HI then Err(CrossesEnd)
    else if InCcm(r.address) && r.address + Span(r) - 1 > CCM_HI then Err(CrossesEnd)
    else Ok(Span(r))
  }

  /** Every byte and every aligned element of the range is readable memory of one region. */
  predicate Readable(r: Range) {
    0 < r.count && r.size in {1, 2, 4} && r.address % r.size == 0 &&
    ((SRAM_LO <= r.address && r.address + Span(r) - 1 <= SRAM_HI) || (CCM_LO <= r.address && r.address + Span(r) - 1 <= CCM_HI))
  }

  lemma CheckIsReadable(r: Range)
    ensures CheckRange(r).Ok? <==> Readable(r)
    ensures CheckRange(r).Ok? ==> CheckRange(r).value == Span(r) > 0
  {
    hide Span;
    if r.count > 0 { SpanHoldsOne(r); }
  }

  lemma SpanHoldsOne(r: Range)
    requires r.count > 0
    ensures Span(r) >= r.size
  {
    assert r.size * r.count == r.size + r.size * (r.count - 1);
  }

  function Word(buf: seq<bv8>, at: nat, n: nat): nat
    requires at + n <= |buf|
  {
    if n == 0 then 0 else Word(buf, at, n - 1) + (buf[at + n - 1] as nat) * Pow256(n - 1)
  }

  function Pow256(n: nat): (p: nat)
    ensures p > 0
  {
    if n == 0 then 1 else 256 * Pow256(n - 1)
  }

  /** The i-th range of a request frame: address, size and count, little-endian. */
  function RangeAt(buf: seq<bv8>, i: nat): Range
    requires 17 + 8 * i <= |buf|
  {
    Range(Word(buf, 9 + 8 * i, 4), Word(buf, 13 + 8 * i, 2), Word(buf, 15 + 8 * i, 2))
  }

  function Total(ranges: seq<Range>): nat {
    if ranges == [] then 0 else Total(ranges[..|ranges| - 1]) + Span(ranges[|ranges| - 1])
  }

  /** The first n ranges, checked one by one, the running payload kept within the frame. */
  function Ranges(buf: seq<bv8>, n: nat): Result<seq<Range>>
    requires 9 + 8 * n <= |buf|
  {
    if n == 0 then Ok([])
    else
      match Ranges(buf, n - 1)
      case Err(why) => Err(why)
      case Ok(before) =>
        var r := RangeAt(buf, n - 1);
        match CheckRange(r)
        case Err(why) => Err(why)
        case Ok(span) => if Total(before) + span > MAX_BYTES then Err(TooLarge) else Ok(before + [r])
  }

  /** What the range loop lets through. */
  ghost predicate GoodRanges(buf: seq<bv8>, n: nat, rs: seq<Range>)
    requires 9 + 8 * n <= |buf|
  {
    |rs| == n && Total(rs) <= MAX_BYTES && (forall r :: r in rs ==> Readable(r)) && forall i :: 0 <= i < n ==> rs[i] == RangeAt(buf, i)
  }

  lemma {:induction false} RangesAreGood(buf: seq<bv8>, n: nat)
    requires 9 + 8 * n <= |buf|
    ensures Ranges(buf, n).Ok? ==> GoodRanges(buf, n, Ranges(buf, n).value)
  {
    hide CheckRange, Readable, RangeAt, Span, GoodRanges;
    if n == 0 {
      NoRangesGood(buf);
    } else if Ranges(buf, n).Ok? {
      RangesAreGood(buf, n - 1);
      CheckIsReadable(RangeAt(buf, n - 1));
      OneMoreGood(buf, n, Ranges(buf, n - 1).value);
    }
  }

  lemma NoRangesGood(buf: seq<bv8>)
    requires |buf| >= 9
    ensures GoodRanges(buf, 0, [])
  {
  }

  lemma OneMoreGood(buf: seq<bv8>, n: nat, before: seq<Range>)
    requires 0 < n && 9 + 8 * n <= |buf| && GoodRanges(buf, n - 1, before)
    requires Readable(RangeAt(buf, n - 1)) && Total(before) + Span(RangeAt(buf, n - 1)) <= MAX_BYTES
    ensures GoodRanges(buf, n, before + [RangeAt(buf, n - 1)])
  {
    hide Readable, RangeAt, Span;
    assert (before + [RangeAt(buf, n - 1)])[..n - 1] == before;
  }

  // ---------- admission ----------

  /** Subscribe_StreamBps: bytes per second a stream puts on its link. */
  function Bps(s: Stream): nat { if !s.active || s.divider == 0 then 0 else (OVERHEAD + s.total) * HZ / s.divider }

  /** Eight data bits in ten on the line, at the share of the link streams may use. */
  function Budget(transport: nat): nat {
    if transport == USART3 then 921600 / 10 * 95 / 100 else 115200 / 10 * 20 / 100
  }

  predicate OnLink(s: Stream, transport: nat) { (s.transport == USART3) == (transport == USART3) }

  /** What the slots of a link commit, leaving one slot out. */
  function Committed(table: seq<Stream>, transport: nat, but: int): nat {
    if table == [] then 0
    else
      var i := |table| - 1;
      Committed(table[..i], transport, but) + (if i != but && OnLink(table[i], transport) then Bps(table[i]) else 0)
  }

  /** Subscribe_ParseStreamRequest; other: what the other slots commit on each link. */
  function Parse(buf: seq<bv8>, uart5: bool, other5: nat, other3: nat): Result<Stream> {
    if |buf| < 10 then Err(Truncated)
    else if buf[0] != 0xCC || buf[1] != 0xDE then Err(BadSync)
    else if buf[2] != 0x21 then Err(BadCmd)
    else
      var len, n := (buf[3] as nat) * 256 + (buf[4] as nat), buf[5] as nat;
      if len < 3 || (len - 3) % 8 != 0 then Err(BadLen)
      else if n > MAX_RANGES then Err(TooManyRanges)
      else if 3 + 8 * n != len then Err(LenVsCount)
      else if |buf| < 7 + len then Err(Truncated)
      else if Xor8(buf[2..6 + len]) != buf[6 + len] then Err(BadCrc)
      else Admit(buf, n, uart5, other5, other3)
  }

  function Admit(buf: seq<bv8>, n: nat, uart5: bool, other5: nat, other3: nat): Result<Stream>
    requires 10 + 8 * n <= |buf|
  {
    var divider, transport, slot := buf[6] as nat, buf[7] as nat, buf[8] as nat;
    if slot >= SLOTS then Err(BadSlot)
    else if divider == 0 then Ok(OFF.(slot := slot))
    else if transport != UART5 && transport != USART3 then Err(BadTransport)
    else if transport == UART5 && !uart5 then Err(Uart5Off)
    else if n == 0 then Err(NoRanges)
    else
      match Ranges(buf, n)
      case Err(why) => Err(why)
      case Ok(rs) =>
        var s := Stream(true, divider, transport, slot, rs, Total(rs), 0, 0, false);
        if Bps(s) + (if transport == USART3 then other3 else other5) > Budget(transport) then Err(OverBudget) else Ok(s)
  }

  /** HandleStreamRequest: the slot a request names is left out of the sums, and only an accepted one is stored. */
  function Request(table: seq<Stream>, buf: seq<bv8>, uart5: bool): (seq<Stream>, Result<Stream>)
    requires |table| == SLOTS
  {
    var target := if |buf| >= 9 then buf[8] as int else 0xFF;
    var r := Parse(buf, uart5, Committed(table, UART5, target), Committed(table, USART3, target));
    (if r.Ok? && r.value.slot < SLOTS then table[r.value.slot := r.value] else table, r)
  }

  // ---------- the tick ----------

  /** One paced tick of one slot: due every divider-th time, then served, its counter moved on. */
  function Ticked(s: Stream): Stream {
    if !s.active then s
    else if s.phase + 1 >= s.divider then s.(phase := 0, due := false, seqNo := (s.seqNo + 1) % 256)
    else if s.due then s.(phase := s.phase + 1, due := false, seqNo := (s.seqNo + 1) % 256)
    else s.(phase := s.phase + 1)
  }

  function TickedAll(table: seq<Stream>): (t: seq<Stream>)
    ensures |t| == |table| && forall i {:trigger t[i]} :: 0 <= i < |t| ==> t[i] == Ticked(table[i])
  {
    seq(|table|, i requires 0 <= i < |table| => Ticked(table[i]))
  }

  // ---------- the invariant ----------

  ghost predicate GoodStream(s: Stream, slot: nat) {
    s.transport in {UART5, USART3} && s.total == Total(s.ranges) <= MAX_BYTES && |s.ranges| <= MAX_RANGES &&
    (forall r :: r in s.ranges ==> Readable(r)) &&
    (s.active ==> s.slot == slot && 1 <= s.divider <= 255 && s.phase < s.divider) && !s.due && s.seqNo < 256
  }

  ghost predicate Inv(table: seq<Stream>) {
    |table| == SLOTS && (forall i :: 0 <= i < SLOTS ==> GoodStream(table[i], i)) &&
    (forall t {:trigger Committed(table, t, -1)} :: 0 <= t <= 1 ==> Committed(table, t, -1) <= Budget(t))
  }

  /** Replacing a slot: the sum over all is the sum over the others plus the new stream. */
  lemma {:induction false} CommittedReplaced(table: seq<Stream>, transport: nat, k: nat, s: Stream)
    requires k < |table|
    ensures Committed(table[k := s], transport, -1) == Committed(table, transport, k) + if OnLink(s, transport) then Bps(s) else 0
  {
    hide Bps, OnLink;
    var i := |table| - 1;
    if k < i {
      assert table[k := s][..i] == table[..i][k := s];
      CommittedReplaced(table[..i], transport, k, s);
    } else {
      assert table[k := s][..i] == table[..i];
      CommittedSame(table[..i], transport, k);
    }
  }

  lemma {:induction false} CommittedSame(table: seq<Stream>, transport: nat, k: nat)
    requires |table| <= k
    ensures Committed(table, transport, k) == Committed(table, transport, -1)
  {
    hide Bps, OnLink;
    if table != [] { CommittedSame(table[..|table| - 1], transport, k); }
  }

  lemma {:induction false} CommittedLess(table: seq<Stream>, transport: nat, k: int)
    ensures Committed(table, transport, k) <= Committed(table, transport, -1)
  {
    hide Bps, OnLink;
    if table != [] { CommittedLess(table[..|table| - 1], transport, k); }
  }

  /** What Parse accepts: a stop, or a well-formed stream whose link still has room for it. */
  lemma ParseAccepts(buf: seq<bv8>, uart5: bool, other5: nat, other3: nat)
    ensures Parse(buf, uart5, other5, other3).Ok? ==>
      var s := Parse(buf, uart5, other5, other3).value;
      |buf| >= 10 && s.slot == buf[8] as nat < SLOTS && GoodStream(s, s.slot) && s.transport in {UART5, USART3} &&
      (s.active ==> Bps(s) + (if s.transport == USART3 then other3 else other5) <= Budget(s.transport))
  {
    hide Admit, Xor8, Bps, Budget, GoodStream;
    if Parse(buf, uart5, other5, other3).Ok? { AdmitAccepts(buf, buf[5] as nat, uart5, other5, other3); }
  }

  lemma AdmitAccepts(buf: seq<bv8>, n: nat, uart5: bool, other5: nat, other3: nat)
    requires 10 + 8 * n <= |buf| && n <= MAX_RANGES
    ensures Admit(buf, n, uart5, other5, other3).Ok? ==>
      var s := Admit(buf, n, uart5, other5, other3).value;
      s.slot == buf[8] as nat < SLOTS && GoodStream(s, s.slot) && s.transport in {UART5, USART3} &&
      (s.active ==> Bps(s) + (if s.transport == USART3 then other3 else other5) <= Budget(s.transport))
  {
    hide Bps, Budget, Ranges, Total, Readable, RangeAt;
    NothingToSend();
    RangesAreGood(buf, n);
  }

  lemma NothingToSend()
    ensures Total([]) == 0
  {
  }

  lemma RequestKeeps(table: seq<Stream>, buf: seq<bv8>, uart5: bool)
    requires Inv(table)
    ensures Inv(Request(table, buf, uart5).0)
    ensures Request(table, buf, uart5).1.Err? ==> Request(table, buf, uart5).0 == table
  {
    hide Parse, Bps, Budget, GoodStream, Committed;
    var target := if |buf| >= 9 then buf[8] as int else 0xFF;
    var other5, other3 := Committed(table, UART5, target), Committed(table, USART3, target);
    ParseAccepts(buf, uart5, other5, other3);
    var r := Parse(buf, uart5, other5, other3);
    if r.Ok? {
      var k, s := r.value.slot, r.value;
      StoppedIsFree(s);
      forall t: nat | t <= 1 ensures Committed(table[k := s], t, -1) <= Budget(t) {
        CommittedReplaced(table, t, k, s);
        CommittedLess(table, t, k);
      }
    }
  }

  lemma StoppedIsFree(s: Stream)
    ensures !s.active ==> Bps(s) == 0
  {
  }

  lemma {:induction false} CommittedTicked(table: seq<Stream>, transport: nat)
    ensures Committed(TickedAll(table), transport, -1) == Committed(table, transport, -1)
  {
    if table != [] {
      var i := |table| - 1;
      assert TickedAll(table)[..i] == TickedAll(table[..i]);
      CommittedTicked(table[..i], transport);
    }
  }

  lemma TickKeeps(table: seq<Stream>)
    requires Inv(table)
    ensures Inv(TickedAll(table))
  {
    hide Committed, Budget, Readable;
    CommittedTicked(table, UART5);
    CommittedTicked(table, USART3);
    forall i | 0 <= i < SLOTS ensures GoodStream(TickedAll(table)[i], i) {
      assert GoodStream(table[i], i);
    }
  }

  datatype Step = Asked(buf: seq<bv8>) | Tick

  function After(uart5: bool, table: seq<Stream>, step: Step): (t: seq<Stream>)
    requires |table| == SLOTS
    ensures |t| == SLOTS
  {
    match step
    case Asked(buf) => Request(table, buf, uart5).0
    case Tick => TickedAll(table)
  }

  function Run(uart5: bool, steps: seq<Step>): (table: seq<Stream>)
    ensures |table| == SLOTS
  {
    if steps == [] then [OFF, OFF, OFF, OFF] else After(uart5, Run(uart5, steps[..|steps| - 1]), steps[|steps| - 1])
  }

  /** Whatever frames arrive, accepted, rejected, replacing, moving between links or stopping, with ticks in between:
      the streams of each link stay within its budget. */
  lemma {:induction false} BudgetHolds(uart5: bool, steps: seq<Step>)
    ensures var t := Run(uart5, steps);
      Inv(t) && Committed(t, UART5, -1) <= Budget(UART5) && Committed(t, USART3, -1) <= Budget(USART3)
  {
    if steps != [] {
      var before := Run(uart5, steps[..|steps| - 1]);
      BudgetHolds(uart5, steps[..|steps| - 1]);
      match steps[|steps| - 1]
      case Asked(buf) => RequestKeeps(before, buf, uart5); hide Request, Inv;
      case Tick => TickKeeps(before);
    } else {
      StartsEmpty();
    }
  }

  lemma StartsEmpty()
    ensures Inv([OFF, OFF, OFF, OFF])
  {
    var t := [OFF, OFF, OFF, OFF];
    assert t[..3] == [OFF, OFF, OFF] && t[..3][..2] == [OFF, OFF] && t[..3][..2][..1] == [OFF] && t[..3][..2][..1][..0] == [];
    forall k: nat ensures Committed(t, k, -1) == 0 {
      assert Committed(t[..3][..2][..1], k, -1) == 0;
      assert Committed(t[..3][..2], k, -1) == 0;
      assert Committed(t[..3], k, -1) == 0;
    }
  }

  // ---------- cadence ----------

  function Ticks(s: Stream, n: nat): Stream { if n == 0 then s else Ticked(Ticks(s, n - 1)) }

  /** A slot with divider k is served exactly once every k ticks: after n ticks its counter has advanced by the number
      of times the phase wrapped, whatever the other slots did. */
  lemma {:induction false} OncePerDivider(s: Stream, slot: nat, n: nat)
    requires GoodStream(s, slot) && s.active
    ensures var e, k := Ticks(s, n), s.divider;
      k > 0 && e.phase == (s.phase + n) % k && e.seqNo == (s.seqNo + (s.phase + n) / k) % 256 &&
      e.active && e.divider == k && !e.due
  {
    var k := s.divider;
    hide Readable, Total;
    if n == 0 {
      DivModIs(s.phase, k, 0, s.phase);
    } else {
      OncePerDivider(s, slot, n - 1);
      hide Ticked;
      TickedStep(Ticks(s, n - 1), k, s.phase + n - 1, s.seqNo);
    }
  }

  function TickCount(steps: seq<Step>): nat {
    if steps == [] then 0 else TickCount(steps[..|steps| - 1]) + if steps[|steps| - 1].Tick? then 1 else 0
  }

  /** A step does not set the slot up anew: it is a tick, or a request that is rejected or accepted for another slot. */
  predicate Spares(table: seq<Stream>, step: Step, slot: nat, uart5: bool)
    requires |table| == SLOTS
  {
    step.Asked? ==> var r := Request(table, step.buf, uart5).1; r.Ok? ==> r.value.slot != slot
  }

  lemma SparedSlot(table: seq<Stream>, step: Step, slot: nat, uart5: bool)
    requires |table| == SLOTS && slot < SLOTS && Spares(table, step, slot, uart5)
    ensures After(uart5, table, step)[slot] == if step.Tick? then Ticked(table[slot]) else table[slot]
  {
    hide Parse, Committed, Ticked;
  }

  lemma RunMore(uart5: bool, a: seq<Step>, b: seq<Step>)
    requires b != []
    ensures Run(uart5, a + b) == After(uart5, Run(uart5, a + b[..|b| - 1]), b[|b| - 1])
  {
    hide After;
    assert (a + b)[..|a + b| - 1] == a + b[..|b| - 1];
  }

  /** After any run a, through any steps b that leave the slot alone, the slot is where its own ticks took it. */
  lemma {:induction false} SlotAlone(uart5: bool, a: seq<Step>, b: seq<Step>, slot: nat)
    requires slot < SLOTS && forall k :: 0 <= k < |b| ==> Spares(Run(uart5, a + b[..k]), b[k], slot, uart5)
    ensures Run(uart5, a + b)[slot] == Ticks(Run(uart5, a)[slot], TickCount(b))
  {
    hide Spares, After, Ticked, Run;
    if b == [] {
      assert a + b == a;
    } else {
      var before, last := b[..|b| - 1], b[|b| - 1];
      forall k | 0 <= k < |before| ensures Spares(Run(uart5, a + before[..k]), before[k], slot, uart5) {
        assert before[..k] == b[..k];
      }
      SlotAlone(uart5, a, before, slot);
      RunMore(uart5, a, b);
      SparedSlot(Run(uart5, a + before), last, slot, uart5);
    }
  }

  /** The cadence of an active slot, over any ticks and any requests that are rejected or set up other slots: its counter
      advances once every divider ticks. */
  lemma SlotCadence(uart5: bool, a: seq<Step>, b: seq<Step>, slot: nat)
    requires slot < SLOTS && forall k :: 0 <= k < |b| ==> Spares(Run(uart5, a + b[..k]), b[k], slot, uart5)
    ensures var s, e, n := Run(uart5, a)[slot], Run(uart5, a + b)[slot], TickCount(b);
      s.active ==>
        s.divider > 0 && e.active && e.divider == s.divider && e.ranges == s.ranges && e.transport == s.transport &&
        e.phase == (s.phase + n) % s.divider && e.seqNo == (s.seqNo + (s.phase + n) / s.divider) % 256
  {
    hide Spares, Run, Readable, Committed;
    BudgetHolds(uart5, a);
    SlotAlone(uart5, a, b, slot);
    var s := Run(uart5, a)[slot];
    assert GoodStream(s, slot);
    if s.active {
      OncePerDivider(s, slot, TickCount(b));
      SameStream(s, TickCount(b));
    }
  }

  lemma {:induction false} SameStream(s: Stream, n: nat)
    ensures var e := Ticks(s, n); e.ranges == s.ranges && e.total == s.total && e.transport == s.transport
  {
    if n > 0 { SameStream(s, n - 1); }
  }

  lemma TickedStep(e: Stream, k: nat, x: nat, from: nat)
    requires k > 0 && e.active && e.divider == k && !e.due && e.phase == x % k && e.seqNo == (from + x / k) % 256
    ensures var n := Ticked(e);
      n.phase == (x + 1) % k && n.seqNo == (from + (x + 1) / k) % 256 && n.active && n.divider == k && !n.due
  {
    NextMultiple(x, k);
    Wrap256(from + x / k);
    var q := x / k;
    assert (x + 1) / k == if x % k + 1 == k then q + 1 else q;
  }

  lemma NextMultiple(x: nat, k: nat)
    requires k > 0
    ensures if x % k + 1 == k then (x + 1) % k == 0 && (x + 1) / k == x / k + 1 else (x + 1) % k == x % k + 1 && (x + 1) / k == x / k
  {
    var q, r := x / k, x % k;
    assert x == q * k + r;
    if r + 1 == k { DivModIs(x + 1, k, q + 1, 0); } else { DivModIs(x + 1, k, q, r + 1); }
  }

  lemma DivModIs(x: nat, k: nat, q: nat, r: nat)
    requires k > 0 && r < k && x == q * k + r
    ensures x / k == q && x % k == r
  {
    var d := x / k - q;
    assert d * k == r - x % k;
    assert d >= 1 ==> d * k >= k;
    assert d <= -1 ==> -d * k >= k;
  }

  lemma Wrap256(x: nat)
    ensures (x % 256 + 1) % 256 == (x + 1) % 256
  {
  }

  // ---------- frames ----------

  /** count elements of one range, as bytes of memory. */
  function Bytes(mem: nat -> bv8, r: Range): (b: seq<bv8>)
    ensures |b| == Span(r)
  {
    seq(Span(r), k requires 0 <= k => mem(r.address + k))
  }

  function Payload(mem: nat -> bv8, ranges: seq<Range>): (b: seq<bv8>)
    ensures |b| == Total(ranges)
  {
    if ranges == [] then [] else Payload(mem, ranges[..|ranges| - 1]) + Bytes(mem, ranges[|ranges| - 1])
  }

  function Byte(v: nat, n: nat): bv8 { ((v / Pow256(n)) % 256) as bv8 }

  /** Frame type, length, counter and timestamp: what the CRC covers besides the payload. */
  function Covered(s: Stream, ms: nat, mem: nat -> bv8): seq<bv8> {
    [Byte(0x09 + s.slot, 0), Byte(4 + s.total, 1), Byte(4 + s.total, 0), Byte(s.seqNo, 0),
     Byte(ms, 0), Byte(ms, 1), Byte(ms, 2), Byte(ms, 3)] + Payload(mem, s.ranges)
  }

  function Frame(s: Stream, ms: nat, mem: nat -> bv8): seq<bv8> {
    var body := Covered(s, ms, mem);
    [0xAA, 0xBB] + body + [HiByte(Crc16(body)), LoByte(Crc16(body))]
  }

  /** An admitted stream's frame always fits its buffer, and a receiver's CRC over it comes out at zero. */
  lemma FrameFits(s: Stream, slot: nat, ms: nat, mem: nat -> bv8)
    requires GoodStream(s, slot)
    ensures |Frame(s, ms, mem)| == OVERHEAD + s.total <= MAX_BYTES + OVERHEAD && Crc16(Frame(s, ms, mem)[2..]) == 0
  {
    hide Crc16, HiByte, LoByte, Payload, Readable, Byte;
    var body := Covered(s, ms, mem);
    FrameLeavesZero(body);
    assert Frame(s, ms, mem)[2..] == body + [HiByte(Crc16(body)), LoByte(Crc16(body))];
  }

  // ---------- the object ----------

  /** Phase 1 of a tick: the slot's clock. */
  function Marked(s: Stream): Stream {
    if !s.active then s
    else if s.phase + 1 >= s.divider then s.(phase := 0, due := true)
    else s.(phase := s.phase + 1)
  }

  predicate Due(s: Stream) { s.active && s.due }

  /** Phase 2: the sample is sent, or counted as lost. */
  function Served(s: Stream): Stream { if Due(s) then s.(due := false, seqNo := (s.seqNo + 1) % 256) else s }

  lemma TickedIsServed(s: Stream)
    ensures Ticked(s) == Served(Marked(s))
  {
  }

  function DueSlots(table: seq<Stream>): set<nat> { set i: nat | i < |table| && Due(table[i]) :: i }

  lemma DueAtMostAll(table: seq<Stream>)
    requires |table| == SLOTS
    ensures |DueSlots(table)| <= SLOTS
  {
    var all: set<nat> := {0, 1, 2, 3};
    assert DueSlots(table) <= all;
    SubsetSize(DueSlots(table), all);
  }

  lemma {:induction false} SubsetSize(a: set<nat>, b: set<nat>)
    requires a <= b
    ensures |a| <= |b|
  {
    if a != {} {
      var x :| x in a;
      SubsetSize(a - {x}, b - {x});
    }
  }

  lemma ServingShrinks(table: seq<Stream>, k: nat)
    requires k < |table| && Due(table[k])
    ensures DueSlots(table[k := Served(table[k])]) == DueSlots(table) - {k} && |DueSlots(table) - {k}| == |DueSlots(table)| - 1
  {
    assert k in DueSlots(table);
    var t := table[k := Served(table[k])];
    forall i: nat ensures i in DueSlots(t) <==> i in DueSlots(table) - {k} {
      if i < |table| && i != k { assert t[i] == table[i]; }
    }
  }

  /** The i-th slot in turn after the cursor. */
  function Turn(rr: nat, i: nat): (slot: nat)
    ensures slot < SLOTS
  {
    (rr + i) % SLOTS
  }

  // ---------- what goes on the link ----------

  /** What one tick sends for one slot, no link being backed up. */
  function SlotBytes(s: Stream, ms: nat, mem: nat -> bv8): nat { if Due(Marked(s)) then |Frame(Marked(s), ms, mem)| else 0 }

  /** And for all the slots of a link. */
  function TickBytes(table: seq<Stream>, transport: nat, ms: nat, mem: nat -> bv8): nat {
    if table == [] then 0
    else
      var i := |table| - 1;
      TickBytes(table[..i], transport, ms, mem) + if OnLink(table[i], transport) then SlotBytes(table[i], ms, mem) else 0
  }

  /** The bytes of the frames sent on one link. */
  function SentOn(table: seq<Stream>, served: seq<nat>, frames: seq<seq<bv8>>, transport: nat): nat
    requires |served| == |frames| && forall k :: 0 <= k < |served| ==> served[k] < |table|
  {
    if served == [] then 0
    else
      var k := |served| - 1;
      SentOn(table, served[..k], frames[..k], transport) + if OnLink(table[served[k]], transport) then |frames[k]| else 0
  }

  /** The slots not in a set. */
  function Others(table: seq<Stream>, transport: nat, ms: nat, mem: nat -> bv8, but: set<nat>): nat {
    if table == [] then 0
    else
      var i := |table| - 1;
      Others(table[..i], transport, ms, mem, but) + if OnLink(table[i], transport) && i !in but then SlotBytes(table[i], ms, mem) else 0
  }

  lemma {:induction false} OneLess(table: seq<Stream>, transport: nat, ms: nat, mem: nat -> bv8, but: set<nat>, k: nat)
    requires k !in but
    ensures Others(table, transport, ms, mem, but) == Others(table, transport, ms, mem, but + {k}) +
      if k < |table| && OnLink(table[k], transport) then SlotBytes(table[k], ms, mem) else 0
  {
    hide SlotBytes, OnLink;
    if table != [] { OneLess(table[..|table| - 1], transport, ms, mem, but, k); }
  }

  lemma {:induction false} NoneBut(table: seq<Stream>, transport: nat, ms: nat, mem: nat -> bv8)
    ensures Others(table, transport, ms, mem, {}) == TickBytes(table, transport, ms, mem)
  {
    if table != [] { NoneBut(table[..|table| - 1], transport, ms, mem); }
  }

  lemma {:induction false} SentBut(table: seq<Stream>, served: seq<nat>, frames: seq<seq<bv8>>, transport: nat, ms: nat, mem: nat -> bv8,
                                   busy: nat -> bool)
    requires |served| == |frames| && forall k :: 0 <= k < |served| ==> served[k] < |table| && Due(Marked(table[served[k]]))
    requires forall i, j :: 0 <= i < j < |served| ==> served[i] != served[j]
    requires forall k :: 0 <= k < |served| ==> frames[k] == SentFrame(Marked(table[served[k]]), ms, mem, busy(k))
    ensures SentOn(table, served, frames, transport) + Others(table, transport, ms, mem, SetOf(served)) <= Others(table, transport, ms, mem, {})
  {
    hide Frame, Others, OnLink, Due, Marked, SetOf, SentFrame, SlotBytes;
    SetOfNone();
    if served != [] {
      var k := |served| - 1;
      SentBut(table, served[..k], frames[..k], transport, ms, mem, busy);
      SetOfMore(served);
      OneLess(table, transport, ms, mem, SetOf(served[..k]), served[k]);
      SentSize(table[served[k]], ms, mem, busy(k));
    }
  }

  function SetOf(served: seq<nat>): set<nat> { set k | k in served }

  lemma SetOfNone()
    ensures SetOf([]) == {}
  {
  }

  lemma SetOfMore(served: seq<nat>)
    requires served != [] && forall i, j :: 0 <= i < j < |served| ==> served[i] != served[j]
    ensures var k := |served| - 1; SetOf(served) == SetOf(served[..k]) + {served[k]} && served[k] !in SetOf(served[..k])
  {
    assert served == served[..|served| - 1] + [served[|served| - 1]];
  }

  lemma SentSize(s: Stream, ms: nat, mem: nat -> bv8, busy: bool)
    requires Due(Marked(s))
    ensures |SentFrame(Marked(s), ms, mem, busy)| <= SlotBytes(s, ms, mem)
  {
    hide Frame;
  }

  /** A tick puts on a link at most the frames of the slots that came due. */
  lemma SentWithin(table: seq<Stream>, served: seq<nat>, frames: seq<seq<bv8>>, transport: nat, ms: nat, mem: nat -> bv8, busy: nat -> bool)
    requires |served| == |frames| && forall k :: 0 <= k < |served| ==> served[k] < |table| && Due(Marked(table[served[k]]))
    requires forall i, j :: 0 <= i < j < |served| ==> served[i] != served[j]
    requires forall k :: 0 <= k < |served| ==> frames[k] == SentFrame(Marked(table[served[k]]), ms, mem, busy(k))
    ensures SentOn(table, served, frames, transport) <= TickBytes(table, transport, ms, mem)
  {
    hide Frame, Others, OnLink, Due, Marked, SentOn, TickBytes, SentFrame;
    SentBut(table, served, frames, transport, ms, mem, busy);
    NoneBut(table, transport, ms, mem);
  }

  function TableAfter(table: seq<Stream>, n: nat): (t: seq<Stream>)
    ensures |t| == |table|
  {
    if n == 0 then table else TickedAll(TableAfter(table, n - 1))
  }

  /** The bytes of n ticks; the k-th at ms(k), sampling mem(k). */
  function Carried(table: seq<Stream>, transport: nat, ms: nat -> nat, mem: nat -> nat -> bv8, n: nat): nat {
    if n == 0 then 0
    else Carried(table, transport, ms, mem, n - 1) + TickBytes(TableAfter(table, n - 1), transport, ms(n - 1), mem(n - 1))
  }

  function SlotCarried(s: Stream, ms: nat -> nat, mem: nat -> nat -> bv8, n: nat): nat {
    if n == 0 then 0 else SlotCarried(s, ms, mem, n - 1) + SlotBytes(Ticks(s, n - 1), ms(n - 1), mem(n - 1))
  }

  function SlotsCarried(table: seq<Stream>, transport: nat, ms: nat -> nat, mem: nat -> nat -> bv8, n: nat): nat {
    if table == [] then 0
    else
      var i := |table| - 1;
      SlotsCarried(table[..i], transport, ms, mem, n) + if OnLink(table[i], transport) then SlotCarried(table[i], ms, mem, n) else 0
  }

  lemma FrameLength(s: Stream, ms: nat, mem: nat -> bv8)
    requires s.total == Total(s.ranges)
    ensures |Frame(s, ms, mem)| == OVERHEAD + s.total
  {
    hide Crc16, HiByte, LoByte, Payload, Byte, Total;
  }

  lemma {:induction false} TableTicks(table: seq<Stream>, n: nat)
    ensures forall i :: 0 <= i < |table| ==> TableAfter(table, n)[i] == Ticks(table[i], n)
  {
    hide Ticked;
    if n > 0 { TableTicks(table, n - 1); }
  }

  lemma TicksOnLink(s: Stream, n: nat, transport: nat)
    ensures OnLink(Ticks(s, n), transport) <==> OnLink(s, transport)
  {
    SameStream(s, n);
  }

  /** One more tick, slot by slot. */
  lemma {:induction false} OneMoreTick(table: seq<Stream>, now: seq<Stream>, transport: nat, ms: nat -> nat, mem: nat -> nat -> bv8, n: nat)
    requires |now| == |table| && forall i :: 0 <= i < |table| ==> now[i] == Ticks(table[i], n)
    ensures SlotsCarried(table, transport, ms, mem, n + 1) ==
      SlotsCarried(table, transport, ms, mem, n) + TickBytes(now, transport, ms(n), mem(n))
  {
    hide SlotBytes, OnLink, Ticked;
    if table != [] {
      var i := |table| - 1;
      OneMoreTick(table[..i], now[..i], transport, ms, mem, n);
      TicksOnLink(table[i], n, transport);
    }
  }

  lemma {:induction false} NoTicksYet(table: seq<Stream>, transport: nat, ms: nat -> nat, mem: nat -> nat -> bv8)
    ensures SlotsCarried(table, transport, ms, mem, 0) == 0
  {
    if table != [] { NoTicksYet(table[..|table| - 1], transport, ms, mem); }
  }

  lemma {:induction false} CarriedBySlots(table: seq<Stream>, transport: nat, ms: nat -> nat, mem: nat -> nat -> bv8, n: nat)
    ensures Carried(table, transport, ms, mem, n) == SlotsCarried(table, transport, ms, mem, n)
  {
    hide TickBytes, SlotsCarried, Ticks, TableAfter;
    if n == 0 { NoTicksYet(table, transport, ms, mem); } else {
      CarriedBySlots(table, transport, ms, mem, n - 1);
      TableTicks(table, n - 1);
      OneMoreTick(table, TableAfter(table, n - 1), transport, ms, mem, n - 1);
    }
  }

  /** A slot sends its frame each time its phase comes round. */
  lemma {:induction false} SlotCarriedIs(s: Stream, slot: nat, ms: nat -> nat, mem: nat -> nat -> bv8, n: nat)
    requires GoodStream(s, slot) && s.active
    ensures s.divider > 0 && SlotCarried(s, ms, mem, n) == ((s.phase + n) / s.divider) * (OVERHEAD + s.total)
  {
    hide Readable, Total, Frame, Ticked;
    if n == 0 { DivModIs(s.phase, s.divider, 0, s.phase); } else {
      SlotCarriedIs(s, slot, ms, mem, n - 1);
      OncePerDivider(s, slot, n - 1);
      SameStream(s, n - 1);
      ServiceAdds(Ticks(s, n - 1), s.phase + (n - 1), s.divider, OVERHEAD + s.total, ms(n - 1), mem(n - 1));
    }
  }

  lemma ServiceAdds(e: Stream, x: nat, k: nat, f: nat, ms: nat, mem: nat -> bv8)
    requires k > 0 && e.active && e.divider == k && !e.due && e.phase == x % k && e.total == Total(e.ranges) && f == OVERHEAD + e.total
    ensures ((x + 1) / k) * f == (x / k) * f + SlotBytes(e, ms, mem)
  {
    hide Frame, Total;
    NextMultiple(x, k);
    FrameLength(Marked(e), ms, mem);
    var q := x / k;
    assert (q + 1) * f == q * f + f;
  }

  /** A stream of f bytes every k ticks against the bytes a second it is priced at. */
  lemma PricedIn(f: nat, k: nat, bps: nat, phase: nat, n: nat)
    requires k > 0 && phase < k && bps == f * HZ / k
    ensures var times := (phase + n) / k;
      HZ * (times * f) <= (bps + 1) * n + HZ * f && (n % k == 0 ==> bps * n <= HZ * (times * f) <= (bps + 1) * n)
  {
    var times, r := (phase + n) / k, HZ * f - bps * k;
    var price := bps + 1;
    assert HZ * f < price * k;
    assert times * k <= phase + n;
    WholeTimes(f, k, price, times, n);
    if n % k == 0 {
      var m := n / k;
      assert n == k * m && phase + n == m * k + phase;
      DivModIs(phase + n, k, m, phase);
      EvenTimes(f, k, price, m, n);
    }
  }

  lemma WholeTimes(f: nat, k: nat, price: nat, times: nat, n: nat)
    requires k > 0 && HZ * f <= price * k && times * k <= n + k
    ensures HZ * (times * f) <= price * n + HZ * f
  {
    GainTimes(HZ * f, k, price, times, n);
    LessByFactor((HZ * f) * times, price * n + HZ * f, k);
    assert (HZ * f) * times == HZ * (times * f);
  }

  lemma GainTimes(g: nat, k: nat, price: nat, times: nat, n: nat)
    requires g <= price * k && times * k <= n + k
    ensures (g * times) * k <= (price * n + g) * k
  {
    assert g * (times * k) <= g * (n + k);
    MoreTimes(g, price * k, n);
    assert (price * n + g) * k == (price * k) * n + g * k;
  }

  lemma LessByFactor(x: int, y: int, k: nat)
    requires k > 0 && x * k <= y * k
    ensures x <= y
  {
    if x > y { AtLeastOnce(x - y, k); }
  }

  lemma AtLeastOnce(d: nat, k: nat)
    requires d >= 1
    ensures d * k >= k
  {
  }

  lemma EvenTimes(f: nat, k: nat, price: nat, m: nat, n: nat)
    requires price > 0 && (price - 1) * k <= HZ * f <= price * k && n == k * m
    ensures (price - 1) * n <= HZ * (m * f) <= price * n
  {
    MoreTimes(HZ * f, price * k, m);
    MoreTimes((price - 1) * k, HZ * f, m);
    assert (price * k) * m == price * n && ((price - 1) * k) * m == (price - 1) * n && (HZ * f) * m == HZ * (m * f);
  }

  /** The frames of the active slots of a link, one each. */
  function OneEach(table: seq<Stream>, transport: nat): nat {
    if table == [] then 0
    else
      var i := |table| - 1;
      OneEach(table[..i], transport) + if table[i].active && OnLink(table[i], transport) then OVERHEAD + table[i].total else 0
  }

  /** No slot sends more than it is priced at, but for one frame where the ticks do not end with its period. */
  lemma SlotPriced(s: Stream, slot: nat, ms: nat -> nat, mem: nat -> nat -> bv8, n: nat)
    requires GoodStream(s, slot)
    ensures HZ * SlotCarried(s, ms, mem, n) <= (Bps(s) + 1) * n + if s.active then HZ * (OVERHEAD + s.total) else 0
    ensures s.active && n % s.divider == 0 ==> Bps(s) * n <= HZ * SlotCarried(s, ms, mem, n) <= (Bps(s) + 1) * n
    ensures !s.active ==> SlotCarried(s, ms, mem, n) == Bps(s) == 0
  {
    hide Readable, Total, SlotCarried;
    if s.active {
      SlotCarriedIs(s, slot, ms, mem, n);
      PricedIn(OVERHEAD + s.total, s.divider, Bps(s), s.phase, n);
    } else {
      SlotSilent(s, ms, mem, n);
    }
  }

  lemma {:induction false} SlotSilent(s: Stream, ms: nat -> nat, mem: nat -> nat -> bv8, n: nat)
    requires !s.active
    ensures SlotCarried(s, ms, mem, n) == 0 && Ticks(s, n) == s
  {
    hide Frame;
    if n > 0 { SlotSilent(s, ms, mem, n - 1); }
  }

  /** Every period of an active slot has ended. */
  ghost predicate WholePeriods(table: seq<Stream>, n: nat) {
    forall i {:trigger table[i]} :: 0 <= i < |table| && table[i].active && table[i].divider > 0 ==> n % table[i].divider == 0
  }

  lemma {:induction false} SlotsPriced(table: seq<Stream>, transport: nat, ms: nat -> nat, mem: nat -> nat -> bv8, n: nat)
    requires forall i :: 0 <= i < |table| ==> GoodStream(table[i], i)
    ensures HZ * SlotsCarried(table, transport, ms, mem, n) <=
      (Committed(table, transport, -1) + |table|) * n + HZ * OneEach(table, transport)
    ensures WholePeriods(table, n) ==>
      Committed(table, transport, -1) * n <= HZ * SlotsCarried(table, transport, ms, mem, n) <= (Committed(table, transport, -1) + |table|) * n
  {
    hide GoodStream, OnLink, Bps, SlotCarried;
    if table != [] {
      var i := |table| - 1;
      SlotsPriced(table[..i], transport, ms, mem, n);
      SlotPriced(table[i], i, ms, mem, n);
      GoodDivider(table[i], i);
      SumPriced(Committed(table[..i], transport, -1) + i, Bps(table[i]) + 1, n, OnLink(table[i], transport));
      AddTimes(Committed(table[..i], transport, -1), Bps(table[i]), n);
    }
  }

  lemma GoodDivider(s: Stream, slot: nat)
    requires GoodStream(s, slot)
    ensures s.active ==> s.divider > 0
  {
  }

  lemma AddTimes(x: nat, y: nat, n: nat)
    ensures (x + y) * n == x * n + y * n
  {
  }

  lemma SumPriced(x: nat, y: nat, n: nat, on: bool)
    requires y > 0
    ensures (x + if on then y else 1) * n == x * n + (if on then y * n else n)
  {
  }

  /** Bits a second on the line, and how many in a hundred streams may use. */
  function Baud(transport: nat): nat { if transport == USART3 then 921600 else 115200 }

  function Share(transport: nat): nat { if transport == USART3 then 95 else 20 }

  /** What the budget is for. From any reachable table, any n ticks with no request between them put at most the link's
      budget a second, a byte a slot more for the rounding of the prices, on that link; but for one frame a slot when n
      does not end its period. In bits, ten to a byte, that is the link's share of its baud rate. Times are in ticks of
      1 / HZ s, and bytes are those of the frames. */
  lemma LinkNotOversold(uart5: bool, steps: seq<Step>, transport: nat, ms: nat -> nat, mem: nat -> nat -> bv8, n: nat)
    requires transport <= 1
    ensures var table := Run(uart5, steps);
      HZ * Carried(table, transport, ms, mem, n) <= (Budget(transport) + SLOTS) * n + HZ * OneEach(table, transport) &&
      (WholePeriods(table, n) ==>
        HZ * Carried(table, transport, ms, mem, n) <= (Budget(transport) + SLOTS) * n &&
        1000 * (HZ * Carried(table, transport, ms, mem, n)) <= (Share(transport) * Baud(transport) + 1000 * SLOTS) * n)
  {
    BudgetHolds(uart5, steps);
    hide GoodStream, Run, Committed, Budget, SlotsCarried, Carried, WholePeriods, OneEach;
    var table := Run(uart5, steps);
    CarriedBySlots(table, transport, ms, mem, n);
    SlotsPriced(table, transport, ms, mem, n);
    MoreTimes(Committed(table, transport, -1) + SLOTS, Budget(transport) + SLOTS, n);
    BitsOnLink(transport);
    MoreTimes(1000 * (Budget(transport) + SLOTS), Share(transport) * Baud(transport) + 1000 * SLOTS, n);
    Thousands(Budget(transport) + SLOTS, n);
  }

  lemma Thousands(x: nat, n: nat)
    ensures (1000 * x) * n == 1000 * (x * n)
  {
  }

  lemma BitsOnLink(transport: nat)
    requires transport <= 1
    ensures 1000 * Budget(transport) <= Share(transport) * Baud(transport) < 1000 * (Budget(transport) + 1)
  {
  }

  /** The stream a request asks for. */
  ghost predicate Requested(buf: seq<bv8>, s: Stream) {
    |buf| >= 9 && 9 + 8 * |s.ranges| <= |buf| && s.active && !s.due && s.phase == s.seqNo == 0 &&
    s.divider == buf[6] as nat && s.transport == buf[7] as nat && s.slot == buf[8] as nat && |s.ranges| == buf[5] as nat &&
    s.total == Total(s.ranges) && GoodRanges(buf, |s.ranges|, s.ranges)
  }

  /** And nobody is turned away for nothing: with the refused stream in its slot, every whole period would put more than
      the budget on its link. */
  lemma OverBudgetIsReal(uart5: bool, steps: seq<Step>, buf: seq<bv8>, ms: nat -> nat, mem: nat -> nat -> bv8, n: nat) returns (s: Stream)
    requires Request(Run(uart5, steps), buf, uart5).1 == Err(OverBudget)
    ensures Requested(buf, s) && GoodStream(s, s.slot) && s.slot < SLOTS
    ensures var table := Run(uart5, steps)[s.slot := s];
      n > 0 && WholePeriods(table, n) ==> HZ * Carried(table, s.transport, ms, mem, n) > Budget(s.transport) * n
  {
    hide GoodStream, Run, Committed, Bps, Budget, WholePeriods, Carried, Requested, Parse;
    BudgetHolds(uart5, steps);
    var table, target := Run(uart5, steps), if |buf| >= 9 then buf[8] as int else 0xFF;
    s := Refused(buf, uart5, Committed(table, UART5, target), Committed(table, USART3, target));
    var with := table[s.slot := s];
    CommittedReplaced(table, s.transport, s.slot, s);
    if n > 0 && WholePeriods(with, n) {
      CarriedBySlots(with, s.transport, ms, mem, n);
      SlotsPriced(with, s.transport, ms, mem, n);
      MoreTimes(Budget(s.transport) + 1, Committed(with, s.transport, -1), n);
      AddTimes(Budget(s.transport), 1, n);
    }
  }

  lemma Refused(buf: seq<bv8>, uart5: bool, other5: nat, other3: nat) returns (s: Stream)
    requires Parse(buf, uart5, other5, other3) == Err(OverBudget)
    ensures |buf| >= 9 && Requested(buf, s) && GoodStream(s, s.slot) && s.slot == buf[8] as nat < SLOTS && OnLink(s, s.transport)
    ensures s.transport in {UART5, USART3} && Bps(s) + (if s.transport == USART3 then other3 else other5) > Budget(s.transport)
  {
    hide Bps, Budget, Ranges, Parse, Admit, GoodRanges, Total, Readable, GoodStream, Requested;
    ReachesAdmit(buf, uart5, other5, other3);
    var n := buf[5] as nat;
    RangesNeverOver(buf, n);
    s := AdmitRefuses(buf, n, uart5, other5, other3);
    RangesAreGood(buf, n);
    RefusedIs(buf, s);
  }

  lemma RefusedIs(buf: seq<bv8>, s: Stream)
    requires |buf| >= 9 && 9 + 8 * (buf[5] as nat) <= |buf| && buf[5] as nat <= MAX_RANGES && GoodRanges(buf, buf[5] as nat, s.ranges)
    requires s == Stream(true, buf[6] as nat, buf[7] as nat, buf[8] as nat, s.ranges, Total(s.ranges), 0, 0, false)
    requires s.divider > 0 && s.transport in {UART5, USART3}
    ensures Requested(buf, s) && GoodStream(s, s.slot)
  {
    hide Total, Readable, RangeAt;
  }

  lemma AdmitRefuses(buf: seq<bv8>, n: nat, uart5: bool, other5: nat, other3: nat) returns (s: Stream)
    requires 10 + 8 * n <= |buf| && Admit(buf, n, uart5, other5, other3) == Err(OverBudget) && Ranges(buf, n) != Err(OverBudget)
    ensures Ranges(buf, n) == Ok(s.ranges)
    ensures s == Stream(true, buf[6] as nat, buf[7] as nat, buf[8] as nat, s.ranges, Total(s.ranges), 0, 0, false)
    ensures s.divider > 0 && s.transport in {UART5, USART3} && s.slot < SLOTS
    ensures Bps(s) + (if s.transport == USART3 then other3 else other5) > Budget(s.transport)
  {
    hide Bps, Budget, Ranges, Total;
    var rs := Ranges(buf, n).value;
    s := Stream(true, buf[6] as nat, buf[7] as nat, buf[8] as nat, rs, Total(rs), 0, 0, false);
  }

  lemma ReachesAdmit(buf: seq<bv8>, uart5: bool, other5: nat, other3: nat)
    requires Parse(buf, uart5, other5, other3) == Err(OverBudget)
    ensures |buf| >= 10 && 10 + 8 * (buf[5] as nat) <= |buf| && buf[5] as nat <= MAX_RANGES &&
      Admit(buf, buf[5] as nat, uart5, other5, other3) == Err(OverBudget)
  {
    hide Admit, Xor8;
  }

  lemma RangesCount(buf: seq<bv8>, n: nat, rs: seq<Range>)
    requires 9 + 8 * n <= |buf| && GoodRanges(buf, n, rs)
    ensures |rs| == n && Total(rs) <= MAX_BYTES && forall r :: r in rs ==> Readable(r)
  {
  }

  lemma {:induction false} RangesNeverOver(buf: seq<bv8>, n: nat)
    requires 9 + 8 * n <= |buf|
    ensures Ranges(buf, n) != Err(OverBudget)
  {
    hide RangeAt, Span, Total;
    if n > 0 { RangesNeverOver(buf, n - 1); }
  }

  lemma MoreTimes(x: nat, y: nat, n: nat)
    requires x <= y
    ensures x * n <= y * n
  {
  }

  class Telemetry {
    const streams: array<Stream>
    const uart5: bool
    var rr: nat
    var started: bool
    var lastMs: nat

    ghost predicate Valid()
      reads this, streams
    {
      streams.Length == SLOTS && rr < SLOTS && lastMs < 0x1_0000_0000 && Inv(streams[..])
    }

    constructor (uart5: bool)
      ensures Valid() && fresh(streams) && this.uart5 == uart5 && streams[..] == [OFF, OFF, OFF, OFF]
    {
      streams := new Stream[SLOTS](_ => OFF);
      this.uart5, rr, started, lastMs := uart5, 0, false, 0;
      new;
      assert streams[..] == [OFF, OFF, OFF, OFF];
      StartsEmpty();
    }

    /** What the other slots commit on a link. */
    method SumOthers(transport: nat, target: int) returns (sum: nat)
      ensures sum == Committed(streams[..], transport, target)
    {
      hide Bps, OnLink;
      sum := 0;
      for i := 0 to streams.Length
        invariant sum == Committed(streams[..i], transport, target)
      {
        assert streams[..i + 1][..i] == streams[..i];
        if i != target && OnLink(streams[i], transport) { sum := sum + Bps(streams[i]); }
      }
      assert streams[..streams.Length] == streams[..];
    }

    /** The range loop of Subscribe_ParseStreamRequest. */
    method ParseRanges(buf: seq<bv8>, n: nat) returns (r: Result<seq<Range>>)
      requires 9 + 8 * n <= |buf|
      ensures r == Ranges(buf, n)
    {
      hide CheckRange, RangeAt, Ranges, Total, Span, Readable;
      RangesNone(buf);
      var ranges, total := [], 0;
      for i := 0 to n
        invariant Ranges(buf, i) == Ok(ranges) && total == Total(ranges)
      {
        var next := RangeAt(buf, i);
        var checked := CheckRange(next);
        RangesStep(buf, i, ranges);
        if checked.Err? || total + checked.value > MAX_BYTES {
          RangesStayBad(buf, i + 1, n);
          return if checked.Err? then Err(checked.why) else Err(TooLarge);
        }
        CheckIsReadable(next);
        TotalStep(ranges, next);
        ranges, total := ranges + [next], total + checked.value;
      }
      r := Ok(ranges);
    }

    /** HandleStreamRequest: a rejected request touches no slot. */
    method HandleRequest(buf: seq<bv8>) returns (r: Result<Stream>)
      requires Valid()
      modifies streams
      ensures Valid() && (streams[..], r) == Request(old(streams[..]), buf, uart5)
      ensures r.Err? ==> streams[..] == old(streams[..])
    {
      hide Parse, Committed, Inv;
      ghost var before := streams[..];
      RequestKeeps(before, buf, uart5);
      var target := if |buf| >= 9 then buf[8] as int else 0xFF;
      var other5 := SumOthers(UART5, target);
      var other3 := SumOthers(USART3, target);
      ParseAccepts(buf, uart5, other5, other3);
      r := Parse(buf, uart5, other5, other3);
      if r.Ok? {
        streams[r.value.slot] := r.value;
        assert streams[..] == before[r.value.slot := r.value];
      }
    }

    /** Subscribe_BuildStreamFrame. */
    method BuildFrame(s: Stream, ms: nat, mem: nat -> bv8, cap: nat) returns (ok: bool, out: seq<bv8>)
      requires s.total == Total(s.ranges)
      ensures ok == (OVERHEAD + s.total <= cap) && out == if ok then Frame(s, ms, mem) else []
    {
      hide Crc16, Byte, HiByte, LoByte, Run16, Total;
      if 6 + (4 + s.total) + 2 > cap { return false, []; }
      var n := 4 + s.total;
      out := [Byte(0x09 + s.slot, 0), Byte(n, 1), Byte(n, 0), Byte(s.seqNo, 0), Byte(ms, 0), Byte(ms, 1), Byte(ms, 2), Byte(ms, 3)];
      ghost var head := out;
      for i := 0 to |s.ranges|
        invariant out == head + Payload(mem, s.ranges[..i])
      {
        var r := s.ranges[i];
        assert s.ranges[..i + 1][..i] == s.ranges[..i];
        var bytes := [];
        for k := 0 to r.size * r.count
          invariant |bytes| == k && bytes == Bytes(mem, r)[..k]
        {
          bytes := bytes + [mem(r.address + k)];
        }
        assert bytes == Bytes(mem, r);
        out := out + bytes;
      }
      assert s.ranges[..|s.ranges|] == s.ranges;
      var crc := Crc16Ccitt(out);
      out := [0xAA, 0xBB] + out + [HiByte(crc), LoByte(crc)];
      ok := true;
    }

    /** Phase 1: every slot's clock. */
    method Advance()
      requires streams.Length == SLOTS
      modifies streams
      ensures forall i :: 0 <= i < SLOTS ==> streams[i] == Marked(old(streams[i]))
    {
      for i := 0 to SLOTS
        invariant forall j :: 0 <= j < i ==> streams[j] == Marked(old(streams[j]))
        invariant forall j :: i <= j < SLOTS ==> streams[j] == old(streams[j])
      {
        streams[i] := Marked(streams[i]);
      }
    }

    /** One sweep of phase 2: the first due slot from the cursor on is served. */
    method ServeOne(ms: nat, mem: nat -> bv8, busy: bool) returns (served: bool, slot: nat, frame: seq<bv8>)
      requires streams.Length == SLOTS && rr < SLOTS && Sized(streams[..])
      modifies this`rr, streams
      ensures rr < SLOTS && served == (DueSlots(old(streams[..])) != {})
      ensures served ==> slot < SLOTS && Due(old(streams[slot])) && streams[..] == old(streams[..])[slot := Served(old(streams[slot]))]
      ensures served ==> frame == SentFrame(old(streams[slot]), ms, mem, busy)
      ensures !served ==> streams[..] == old(streams[..])
    {
      hide Frame, Total;
      frame, slot := [], 0;
      for i := 0 to SLOTS
        invariant streams[..] == old(streams[..]) && rr == old(rr)
        invariant forall j {:trigger Turn(rr, j)} :: 0 <= j < i ==> !Due(streams[Turn(rr, j)])
      {
        slot := Turn(rr, i);
        var s := streams[slot];
        if Due(s) {
          assert slot in DueSlots(streams[..]);
          if !(s.transport == USART3 && busy) {
            var ok;
            ok, frame := BuildFrame(s, ms, mem, MAX_BYTES + OVERHEAD);
          }
          streams[slot] := s.(due := false, seqNo := (s.seqNo + 1) % 256);
          rr := Turn(slot, 1);
          return true, slot, frame;
        }
      }
      NoneDue(streams[..], rr);
      served := false;
    }

    /** Subscribe_StreamTick: paced out it does nothing; otherwise each due slot is served exactly once, none stays
        due, and every other slot just has its clock moved. */
    method StreamTick(ms: nat, mem: nat -> bv8, busy: nat -> bool) returns (served: seq<nat>, frames: seq<seq<bv8>>)
      requires Valid() && ms < 0x1_0000_0000
      modifies this, streams
      ensures Valid()
      ensures old(Paced(ms)) ==> streams[..] == old(streams[..]) && rr == old(rr) && lastMs == old(lastMs) && served == []
      ensures !old(Paced(ms)) ==> streams[..] == TickedAll(old(streams[..])) && started && lastMs == ms
      ensures !old(Paced(ms)) ==> forall i: nat :: i in served <==> i < SLOTS && Due(Marked(old(streams[i])))
      ensures forall i, j :: 0 <= i < j < |served| ==> served[i] != served[j]
      ensures |frames| == |served|
      ensures forall k :: 0 <= k < |served| ==>
        served[k] < SLOTS && frames[k] == SentFrame(Marked(old(streams[served[k]])), ms, mem, busy(k))
      ensures !old(Paced(ms)) ==> forall t: nat {:trigger TickBytes(old(streams[..]), t, ms, mem)} ::
        SentOn(old(streams[..]), served, frames, t) <= TickBytes(old(streams[..]), t, ms, mem)
    {
      hide Frame, Inv, Ticked, Marked, Served;
      served, frames := [], [];
      if Paced(ms) { return; }
      started, lastMs := true, ms;
      ghost var before := streams[..];
      TickKeeps(before);
      Advance();
      ghost var marked := streams[..];
      MarkedGood(before, marked);
      served, frames := ServeAll(ms, mem, busy);
      AllServed(before, marked, streams[..], served);
      forall t: nat ensures SentOn(before, served, frames, t) <= TickBytes(before, t, ms, mem) {
        SentWithin(before, served, frames, t, ms, mem, busy);
      }
    }

    /** Too soon after the last tick, on a 32-bit millisecond counter. */
    predicate Paced(ms: nat)
      reads this
    {
      started && (ms - lastMs) % 0x1_0000_0000 < TICK_MIN_MS
    }

    /** Phase 2: at most one frame a slot. */
    method ServeAll(ms: nat, mem: nat -> bv8, busy: nat -> bool) returns (served: seq<nat>, frames: seq<seq<bv8>>)
      requires streams.Length == SLOTS && rr < SLOTS && Sized(streams[..])
      modifies this`rr, streams
      ensures rr < SLOTS && Partly(old(streams[..]), streams[..], served) && DueSlots(streams[..]) == {}
      ensures Sent(old(streams[..]), served, frames, ms, mem, busy)
    {
      hide Served, Total, Due, Frame;
      ghost var marked := streams[..];
      served, frames := [], [];
      DueAtMostAll(marked);
      var sent, more := 0, true;
      while sent < SLOTS && more
        invariant 0 <= sent <= SLOTS && rr < SLOTS && |served| == |frames| == sent
        invariant Partly(marked, streams[..], served) && Sent(marked, served, frames, ms, mem, busy)
        invariant |DueSlots(streams[..])| <= SLOTS - sent
        invariant !more ==> DueSlots(streams[..]) == {}
        decreases SLOTS - sent, more
      {
        ghost var now := streams[..];
        PartlyGood(marked, now, served);
        var slot, frame;
        more, slot, frame := ServeOne(ms, mem, busy(sent));
        if more {
          PartlyMore(marked, now, served, slot);
          ServingShrinks(now, slot);
          served, frames, sent := served + [slot], frames + [frame], sent + 1;
        }
      }
    }
  }

  lemma {:induction false} RangesStayBad(buf: seq<bv8>, i: nat, n: nat)
    requires i <= n && 9 + 8 * n <= |buf| && Ranges(buf, i).Err?
    ensures Ranges(buf, n) == Ranges(buf, i)
    decreases n
  {
    if i < n { RangesStayBad(buf, i, n - 1); }
  }

  lemma RangesNone(buf: seq<bv8>)
    requires |buf| >= 9
    ensures Ranges(buf, 0) == Ok([]) && Total([]) == 0
  {
  }

  lemma RangesStep(buf: seq<bv8>, i: nat, ranges: seq<Range>)
    requires 9 + 8 * (i + 1) <= |buf| && Ranges(buf, i) == Ok(ranges)
    ensures Ranges(buf, i + 1) ==
      match CheckRange(RangeAt(buf, i))
      case Err(why) => Err(why)
      case Ok(span) => if Total(ranges) + span > MAX_BYTES then Err(TooLarge) else Ok(ranges + [RangeAt(buf, i)])
  {
    hide CheckRange, RangeAt, Total;
  }

  lemma TotalStep(ranges: seq<Range>, r: Range)
    ensures Total(ranges + [r]) == Total(ranges) + Span(r)
  {
    assert (ranges + [r])[..|ranges|] == ranges;
  }

  lemma NoneDue(table: seq<Stream>, rr: nat)
    requires |table| == SLOTS && rr < SLOTS && forall j {:trigger Turn(rr, j)} :: 0 <= j < SLOTS ==> !Due(table[Turn(rr, j)])
    ensures DueSlots(table) == {}
  {
    forall i: nat | i < SLOTS ensures !Due(table[i]) {
      var j := (i - rr) % SLOTS;
      assert Turn(rr, j) == i;
    }
  }

  /** Some due slots served, the others as marked. */
  ghost predicate Partly(marked: seq<Stream>, now: seq<Stream>, served: seq<nat>) {
    |marked| == |now| == SLOTS &&
    (forall i: nat {:trigger now[i]} :: i < SLOTS ==> now[i] == if i in served then Served(marked[i]) else marked[i]) &&
    (forall i {:trigger served[i]} :: 0 <= i < |served| ==> served[i] < SLOTS && Due(marked[served[i]])) &&
    (forall i, j :: 0 <= i < j < |served| ==> served[i] != served[j])
  }

  lemma PartlyMore(marked: seq<Stream>, now: seq<Stream>, served: seq<nat>, slot: nat)
    requires Partly(marked, now, served) && slot < SLOTS && Due(now[slot])
    ensures Partly(marked, now[slot := Served(now[slot])], served + [slot])
  {
    assert slot !in served;
  }

  /** A slot's frame, or nothing when its link is backed up. */
  function SentFrame(s: Stream, ms: nat, mem: nat -> bv8, busy: bool): seq<bv8> {
    if busy && s.transport == USART3 then [] else Frame(s, ms, mem)
  }

  /** One frame for each service, of the slot as it was marked. */
  ghost predicate Sent(marked: seq<Stream>, served: seq<nat>, frames: seq<seq<bv8>>, ms: nat, mem: nat -> bv8, busy: nat -> bool) {
    |frames| == |served| && forall k :: 0 <= k < |served| ==>
      served[k] < |marked| && frames[k] == SentFrame(marked[served[k]], ms, mem, busy(k))
  }

  /** The sizes do not change on the way. */
  ghost predicate Sized(table: seq<Stream>) {
    forall i {:trigger table[i]} :: 0 <= i < |table| ==> table[i].total == Total(table[i].ranges) <= MAX_BYTES
  }

  lemma MarkedGood(before: seq<Stream>, marked: seq<Stream>)
    requires Inv(before) && |marked| == SLOTS && forall i :: 0 <= i < SLOTS ==> marked[i] == Marked(before[i])
    ensures Sized(marked)
  {
    hide Committed, Readable, Total;
    forall i | 0 <= i < SLOTS ensures marked[i].total == Total(marked[i].ranges) <= MAX_BYTES {
      assert GoodStream(before[i], i);
    }
  }

  lemma PartlyGood(marked: seq<Stream>, now: seq<Stream>, served: seq<nat>)
    requires Sized(marked) && Partly(marked, now, served)
    ensures Sized(now)
  {
    hide Total;
  }

  lemma AllServed(before: seq<Stream>, marked: seq<Stream>, now: seq<Stream>, served: seq<nat>)
    requires |before| == SLOTS && |marked| == SLOTS && forall i :: 0 <= i < SLOTS ==> marked[i] == Marked(before[i])
    requires Partly(marked, now, served) && DueSlots(now) == {}
    ensures now == TickedAll(before)
    ensures forall i: nat :: i in served <==> i < SLOTS && Due(Marked(before[i]))
  {
    forall i: nat | i < SLOTS ensures now[i] == Ticked(before[i]) && (i in served <==> Due(marked[i])) {
      TickedIsServed(before[i]);
      assert i !in DueSlots(now);
    }
  }
}
