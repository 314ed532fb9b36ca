/** BSP/usart3.c: the transmit ring shared by one producer task and the DMA-complete interrupt. */
module Usart3 {
  // Next interleaves the producer's copy loop (outside its critical sections) with DMA reads and the interrupt in any
  // order; DMA hardware reads one byte of the armed run at a time. Class Uart has the code's own fields.

  const LEN: nat := 4096

  /** Between the two critical sections of Usart3_Stream_TxSend: i bytes of frame copied, h the next index. */
  datatype Producer = Idle | Copying(frame: seq<bv8>, i: nat, h: nat)

  /** sent/wire: how much of the armed run the DMA has read, and everything it ever put on the line.
      accepted: the frames whose send returned 1, end to end. */
  datatype Tx = Tx(ring: seq<bv8>, head: nat, tail: nat, chunk: nat, active: bool,
                   sent: nat, wire: seq<bv8>, producer: Producer, accepted: seq<bv8>)

  datatype Step = Begin(frame: seq<bv8>) | CopyByte | Publish | DmaByte | DmaComplete

  function Used(head: nat, tail: nat): int { if head >= tail then head - tail else LEN - tail + head }

  function Wrap(k: nat): nat { if k >= LEN then k - LEN else k }

  /** tx_arm. */
  function Arm(s: Tx): Tx
    requires s.tail <= LEN
  {
    if s.active || s.head == s.tail then s
    else s.(chunk := if s.head > s.tail then s.head - s.tail else LEN - s.tail, active := true, sent := 0)
  }

  /** Usart3_Tx_DmaIsr, transfer complete. */
  function Complete(s: Tx): Tx {
    Arm(s.(tail := (s.tail + s.chunk) % LEN, chunk := 0, active := false, sent := 0))
  }

  predicate Refused(s: Tx, n: nat) { n == 0 || n >= LEN || LEN - 1 - Used(s.head, s.tail) < n }

  predicate Shaped(s: Tx) {
    |s.ring| == LEN && s.head < LEN && s.tail < LEN && s.tail + s.chunk <= LEN && s.sent <= s.chunk &&
    (s.producer.Copying? ==> s.producer.h < LEN && s.producer.i <= |s.producer.frame|)
  }

  function Next(s: Tx, step: Step): Tx
    requires Shaped(s)
  {
    match step
    case Begin(frame) => if s.producer.Idle? && !Refused(s, |frame|) then s.(producer := Copying(frame, 0, s.head)) else s
    case CopyByte =>
      if s.producer.Copying? && s.producer.i < |s.producer.frame| then
        var p := s.producer;
        s.(ring := s.ring[p.h := p.frame[p.i]], producer := Copying(p.frame, p.i + 1, Wrap(p.h + 1)))
      else s
    case Publish =>
      if s.producer.Copying? && s.producer.i == |s.producer.frame| then
        Arm(s.(head := s.producer.h, producer := Idle, accepted := s.accepted + s.producer.frame))
      else s
    case DmaByte =>
      if s.active && s.sent < s.chunk then s.(wire := s.wire + [s.ring[s.tail + s.sent]], sent := s.sent + 1) else s
    case DmaComplete => if s.active && s.sent == s.chunk then Complete(s) else s
  }

  // ---------- windows on the ring ----------

  /** n bytes from index k on, around the end. */
  function Window(ring: seq<bv8>, k: nat, n: nat): (w: seq<bv8>)
    requires |ring| == LEN && k < LEN && n <= LEN
    ensures |w| == n && forall i {:trigger w[i]} :: 0 <= i < n ==> w[i] == ring[Wrap(k + i)]
  {
    seq(n, i requires 0 <= i < n => ring[Wrap(k + i)])
  }

  /** The bytes in [tail, head). */
  function Pending(s: Tx): seq<bv8>
    requires Shaped(s)
  {
    Window(s.ring, s.tail, Used(s.head, s.tail))
  }

  lemma WindowSplit(ring: seq<bv8>, k: nat, n: nat, m: nat)
    requires |ring| == LEN && k < LEN && n + m < LEN
    ensures Window(ring, k, n + m) == Window(ring, k, n) + Window(ring, Wrap(k + n), m)
  {
  }

  /** Writing d places on leaves the first n <= d bytes alone. */
  lemma WindowStore(ring: seq<bv8>, k: nat, n: nat, d: nat, b: bv8)
    requires |ring| == LEN && k < LEN && n <= d < LEN
    ensures Window(ring[Wrap(k + d) := b], k, n) == Window(ring, k, n)
  {
    forall i | 0 <= i < n ensures Window(ring[Wrap(k + d) := b], k, n)[i] == Window(ring, k, n)[i] {
      assert Wrap(k + i) != Wrap(k + d);
    }
  }

  /** head is Used past tail, and stays so as the producer goes i further. */
  lemma HeadPastTail(head: nat, tail: nat, i: nat)
    requires head < LEN && tail < LEN && Used(head, tail) + i < LEN
    ensures 0 <= Used(head, tail) && Wrap(tail + (Used(head, tail) + i)) == Wrap(head + i)
    ensures Used(Wrap(head + i), tail) == Used(head, tail) + i
  {
  }

  lemma UsedRange(head: nat, tail: nat)
    requires head < LEN && tail < LEN
    ensures 0 <= Used(head, tail) < LEN
  {
  }

  lemma TailForward(head: nat, tail: nat, n: nat)
    requires head < LEN && tail < LEN && n <= Used(head, tail) && tail + n <= LEN
    ensures (tail + n) % LEN == Wrap(tail + n) < LEN && Used(head, Wrap(tail + n)) == Used(head, tail) - n
  {
  }

  // ---------- the invariant ----------

  ghost predicate Copied(s: Tx)
    requires Shaped(s)
  {
    s.producer.Copying? ==>
      var p := s.producer;
      Used(s.head, s.tail) + |p.frame| < LEN && p.h == Wrap(s.head + p.i) &&
      Window(s.ring, s.head, p.i) == p.frame[..p.i]
  }

  ghost predicate Inv(s: Tx) {
    Shaped(s) &&
    s.chunk <= Used(s.head, s.tail) && (s.active <==> s.chunk > 0) && (!s.active ==> s.head == s.tail) &&
    s.wire + Pending(s)[s.sent..] == s.accepted && Copied(s)
  }

  lemma CopyKeeps(s: Tx)
    requires Inv(s)
    ensures Inv(Next(s, CopyByte)) && Pending(Next(s, CopyByte)) == Pending(s)
  {
    hide Used, Wrap, Window;
    var s' := Next(s, CopyByte);
    if s.producer.Copying? && s.producer.i < |s.producer.frame| {
      var p := s.producer;
      var u, b := Used(s.head, s.tail), p.frame[p.i];
      HeadPastTail(s.head, s.tail, p.i);
      WindowStore(s.ring, s.tail, u, u + p.i, b);
      WindowStore(s.ring, s.head, p.i, p.i, b);
      WindowGrow(s'.ring, s.head, p.i);
      assert p.frame[..p.i + 1] == p.frame[..p.i] + [b];
      WrapNext(s.head, p.i);
    }
  }

  lemma WrapNext(k: nat, i: nat)
    requires k < LEN && i < LEN
    ensures Wrap(Wrap(k + i) + 1) == Wrap(k + (i + 1)) < LEN && Wrap(k + i) < LEN
  {
  }

  lemma WindowGrow(ring: seq<bv8>, k: nat, n: nat)
    requires |ring| == LEN && k < LEN && n < LEN
    ensures Wrap(k + n) < LEN && Window(ring, k, n + 1) == Window(ring, k, n) + [ring[Wrap(k + n)]]
  {
  }

  lemma PublishKeeps(s: Tx)
    requires Inv(s)
    ensures Inv(Next(s, Publish))
  {
    hide Wrap, Window, Used;
    if s.producer.Copying? && s.producer.i == |s.producer.frame| {
      var s1 := s.(head := s.producer.h, producer := Idle, accepted := s.accepted + s.producer.frame);
      var n, m := Used(s.head, s.tail), |s.producer.frame|;
      HeadPastTail(s.head, s.tail, 0);
      HeadPastTail(s.head, s.tail, m);
      WindowSplit(s.ring, s.tail, n, m);
      assert Wrap(s.head + 0) == s.head by { WrapSmall(s.head); }
      assert s.producer.frame[..m] == s.producer.frame;
      assert Pending(s1) == Pending(s) + s.producer.frame;
      assert Pending(s1)[s.sent..] == Pending(s)[s.sent..] + s.producer.frame;
      ArmKeeps(s1);
    }
  }

  lemma WrapSmall(k: nat)
    requires k < LEN
    ensures Wrap(k) == k
  {
  }

  /** tx_arm restores "an idle DMA means an empty ring" whatever the ring holds. */
  lemma ArmKeeps(s: Tx)
    requires Shaped(s) && Copied(s) && s.chunk <= Used(s.head, s.tail) && (s.active <==> s.chunk > 0)
    requires s.wire + Pending(s)[s.sent..] == s.accepted
    ensures Inv(Arm(s))
  {
    hide Window;
  }

  lemma CompleteKeeps(s: Tx)
    requires Inv(s)
    ensures Inv(Next(s, DmaComplete))
  {
    hide Wrap, Window, Used;
    if s.active && s.sent == s.chunk {
      var u := Used(s.head, s.tail);
      TailForward(s.head, s.tail, s.chunk);
      var s1 := s.(tail := (s.tail + s.chunk) % LEN, chunk := 0, active := false, sent := 0);
      UsedRange(s.head, s.tail);
      WindowSplit(s.ring, s.tail, s.chunk, u - s.chunk);
      assert Pending(s1) == Pending(s)[s.chunk..];
      ArmKeeps(s1);
    }
  }

  lemma ByteKeeps(s: Tx)
    requires Inv(s)
    ensures Inv(Next(s, DmaByte))
  {
    hide Refused, Arm;
    if s.active && s.sent < s.chunk {
      assert Pending(s)[s.sent..] == [s.ring[s.tail + s.sent]] + Pending(s)[s.sent + 1..];
    }
  }

  lemma BeginKeeps(s: Tx, frame: seq<bv8>)
    requires Inv(s)
    ensures Inv(Next(s, Begin(frame)))
  {
    assert Window(s.ring, s.head, 0) == [];
  }

  lemma NextKeeps(s: Tx, step: Step)
    requires Inv(s)
    ensures Inv(Next(s, step))
  {
    match step
    case Begin(frame) => BeginKeeps(s, frame);
    case CopyByte => CopyKeeps(s);
    case Publish => PublishKeeps(s);
    case DmaByte => ByteKeeps(s);
    case DmaComplete => CompleteKeeps(s);
  }

  // ---------- whole runs ----------

  function Run(s: Tx, steps: seq<Step>): (r: Tx)
    requires Inv(s)
    ensures Inv(r)
  {
    if steps == [] then s
    else
      var before := Run(s, steps[..|steps| - 1]);
      NextKeeps(before, steps[|steps| - 1]);
      Next(before, steps[|steps| - 1])
  }

  lemma {:induction false} RunAppend(s: Tx, a: seq<Step>, b: seq<Step>)
    requires Inv(s)
    ensures Run(s, a + b) == Run(Run(s, a), b)
  {
    if b == [] {
      assert a + b == a;
    } else {
      assert (a + b)[..|a + b| - 1] == a + b[..|b| - 1];
      RunAppend(s, a, b[..|b| - 1]);
    }
  }

  ghost predicate Starts<T>(s: seq<T>, prefix: seq<T>) { |prefix| <= |s| && s[..|prefix|] == prefix }

  /** Room for a frame: with the accepted bytes the DMA has not finished with, at most LEN - 1 bytes. */
  predicate Fits(s: Tx, frame: seq<bv8>) { frame != [] && |s.accepted| - |s.wire| + s.sent + |frame| < LEN }

  /** The code's test on its indices is that room. */
  lemma RefusedIff(s: Tx, frame: seq<bv8>)
    requires Inv(s)
    ensures Refused(s, |frame|) <==> !Fits(s, frame)
  {
    UsedRange(s.head, s.tail);
    assert |s.accepted| == |s.wire| + Used(s.head, s.tail) - s.sent;
    hide Used;
  }

  /** What is accepted, end to end: each frame that comes between sends and fits as a whole at that moment. */
  function Frames(s: Tx, steps: seq<Step>): seq<bv8>
    requires Inv(s)
  {
    if steps == [] then [] else Frames(s, steps[..|steps| - 1]) + Taken(Run(s, steps[..|steps| - 1]), steps[|steps| - 1])
  }

  function Taken(s: Tx, step: Step): seq<bv8> {
    match step
    case Begin(frame) => if s.producer.Idle? && Fits(s, frame) then frame else []
    case _ => []
  }

  function Held(s: Tx): seq<bv8> { if s.producer.Copying? then s.producer.frame else [] }

  lemma StepTakes(s: Tx, step: Step)
    requires Inv(s)
    ensures Shaped(s) && Next(s, step).accepted + Held(Next(s, step)) == s.accepted + Held(s) + Taken(s, step)
  {
    hide Refused, Fits, Pending, Copied, Used;
    if step.Begin? { RefusedIff(s, step.frame); }
  }

  lemma {:induction false} FramesAre(s: Tx, steps: seq<Step>)
    requires Inv(s)
    ensures Run(s, steps).accepted + Held(Run(s, steps)) == s.accepted + Held(s) + Frames(s, steps)
  {
    hide Next, Inv, Held, Taken;
    if steps != [] {
      FramesAre(s, steps[..|steps| - 1]);
      StepTakes(Run(s, steps[..|steps| - 1]), steps[|steps| - 1]);
    }
  }

  predicate Fresh(s: Tx) {
    |s.ring| == LEN && s.head == s.tail == s.chunk == s.sent == 0 && !s.active && s.wire == [] && s.producer.Idle? && s.accepted == []
  }

  lemma FreshInv(s: Tx)
    requires Fresh(s)
    ensures Inv(s)
  {
    assert Pending(s) == [];
  }

  /** The line carries accepted whole frames in order, never a torn one; with the producer between sends,
      what is not on the line yet is in the ring, and an idle DMA means there is nothing left. */
  lemma WireIsPrefix(s: Tx, steps: seq<Step>)
    requires Fresh(s)
    ensures Inv(s)
    ensures var e := Run(s, steps);
      Starts(Frames(s, steps), e.wire) &&
      Frames(s, steps) == e.accepted + (if e.producer.Copying? then e.producer.frame else []) &&
      (e.producer.Idle? && !e.active ==> e.wire == Frames(s, steps))
  {
    hide Inv, Run, Frames, Fresh, Starts;
    FreshInv(s);
    FramesAre(s, steps);
    FreshAdds(s, Frames(s, steps));
    EndOfWire(Run(s, steps));
    StartsMore(Run(s, steps).accepted, Held(Run(s, steps)), Run(s, steps).wire);
    StartsMore(Run(s, steps).accepted, [], Run(s, steps).wire);
  }

  lemma FreshAdds(s: Tx, more: seq<bv8>)
    requires Fresh(s)
    ensures s.accepted + Held(s) + more == more
  {
    assert s.accepted + Held(s) == [];
  }

  lemma StartsMore(s: seq<bv8>, more: seq<bv8>, prefix: seq<bv8>)
    requires Starts(s, prefix)
    ensures Starts(s + more, prefix) && s + [] == s
  {
  }

  lemma EndOfWire(s: Tx)
    requires Inv(s)
    ensures Starts(s.accepted, s.wire) && (!s.active ==> s.wire == s.accepted)
  {
    assert s.accepted[..|s.wire|] == s.wire;
  }

  lemma InvShaped(s: Tx)
    requires Inv(s)
    ensures Shaped(s) && 0 <= Used(s.head, s.tail) < LEN
  {
  }

  /** The rest of an armed transfer and its interrupt. */
  function Transfer(s: Tx): (r: Tx)
    requires Inv(s) && s.active
    ensures Inv(r) && r.accepted == s.accepted && r.head == s.head && r.tail == Wrap(s.tail + s.chunk)
    ensures r.active ==> r.chunk == if r.head > r.tail then r.head - r.tail else LEN - r.tail
    decreases s.chunk - s.sent
  {
    TailForward(s.head, s.tail, s.chunk);
    if s.sent == s.chunk then (CompleteKeeps(s); Next(s, DmaComplete))
    else (ByteKeeps(s); Transfer(Next(s, DmaByte)))
  }

  /** Left alone, the DMA empties the ring: after the transfer in flight, two more are always enough. */
  lemma ThreeTransfersDrain(s: Tx)
    requires Inv(s)
    ensures var a := if s.active then Transfer(s) else s;
            var b := if a.active then Transfer(a) else a;
            var c := if b.active then Transfer(b) else b;
            !c.active && c.wire == s.accepted
  {
    var a := if s.active then Transfer(s) else s;
    var b := if a.active then Transfer(a) else a;
    var c := if b.active then Transfer(b) else b;
    EndOfWire(c);
    hide Transfer, Pending, Copied;
  }

  class Uart {
    const ring: array<bv8>
    var head: nat
    var tail: nat
    var chunk: nat
    var active: bool
    var sent: nat
    var wire: seq<bv8>
    ghost var producer: Producer
    ghost var accepted: seq<bv8>

    ghost function State(): Tx
      reads this, ring
    {
      Tx(ring[..], head, tail, chunk, active, sent, wire, producer, accepted)
    }

    constructor ()
      ensures Fresh(State()) && fresh(ring)
    {
      ring := new bv8[LEN];
      head, tail, chunk, active, sent, wire, producer, accepted := 0, 0, 0, false, 0, [], Idle, [];
    }

    method TxArm()
      requires tail <= LEN
      modifies this`chunk, this`active, this`sent
      ensures State() == Arm(old(State()))
    {
      if active || head == tail { return; }
      var n := if head > tail then head - tail else LEN - tail;
      chunk, active, sent := n, true, 0;
    }

    /** The hardware reads one more byte of the armed run. */
    method DmaReads()
      requires Shaped(State())
      modifies this`wire, this`sent
      ensures State() == Next(old(State()), DmaByte)
    {
      assert State().ring == ring[..];
      if active && sent < chunk {
        wire := wire + [ring[tail + sent]];
        sent := sent + 1;
      }
    }

    method DmaIsr()
      requires Shaped(State())
      modifies this`tail, this`chunk, this`active, this`sent
      ensures State() == Next(old(State()), DmaComplete)
    {
      hide Arm;
      if !(active && sent == chunk) { return; }
      tail := (tail + chunk) % LEN;
      chunk, active, sent := 0, false, 0;
      TxArm();
    }

    /** Whatever the hardware and its interrupt do at one point of the producer's code. */
    method Meanwhile(events: seq<bool>) returns (ghost trace: seq<Step>)
      requires Inv(State())
      modifies this`wire, this`sent, this`tail, this`chunk, this`active
      ensures Inv(State()) && State() == Run(old(State()), trace)
    {
      hide Inv, Next;
      trace := [];
      for i := 0 to |events|
        modifies this`wire, this`sent, this`tail, this`chunk, this`active
        invariant Inv(State()) && State() == Run(old(State()), trace)
      {
        ghost var before := State();
        InvShaped(before);
        var step := if events[i] then DmaByte else DmaComplete;
        NextKeeps(before, step);
        if events[i] { DmaReads(); } else { DmaIsr(); }
        assert (trace + [step])[..|trace|] == trace;
        trace := trace + [step];
      }
    }

    /** One pass of the copy loop. */
    method CopyOne(h: nat, b: bv8) returns (next: nat)
      requires Inv(State()) && producer.Copying? && producer.i < |producer.frame| && h == producer.h && b == producer.frame[producer.i]
      modifies this`producer, ring
      ensures Inv(State()) && State() == Next(old(State()), CopyByte)
      ensures producer == Copying(old(producer.frame), old(producer.i) + 1, next) && next < LEN
    {
      ghost var before := State();
      NextKeeps(before, CopyByte);
      ring[h] := b;
      next := if h + 1 == LEN then 0 else h + 1;
      producer := Copying(producer.frame, producer.i + 1, next);
      hide Inv;
    }

    /** The second critical section. */
    method PublishHead(h: nat)
      requires Inv(State()) && producer.Copying? && producer.i == |producer.frame| && h == producer.h
      modifies this`head, this`chunk, this`active, this`sent, this`producer, this`accepted
      ensures Inv(State()) && State() == Next(old(State()), Publish)
      ensures producer.Idle? && accepted == old(accepted + producer.frame)
    {
      NextKeeps(State(), Publish);
      accepted := accepted + producer.frame;
      head := h;
      producer := Idle;
      TxArm();
      hide Inv;
    }

    /** The first critical section: room for the whole frame, or nothing. */
    method Reserve(buf: seq<bv8>) returns (ok: bool)
      requires Inv(State()) && producer.Idle?
      modifies this`producer
      ensures Inv(State()) && State() == Next(old(State()), Begin(buf)) && ok == !Refused(old(State()), |buf|)
      ensures producer == if ok then Copying(buf, 0, head) else Idle
    {
      hide Inv, Next, Shaped;
      BeginKeeps(State(), buf);
      BeginIs(State(), buf);
      InvShaped(State());
      if |buf| == 0 || |buf| >= LEN { return false; }
      var used := if head >= tail then head - tail else LEN - tail + head;
      if LEN - 1 - used < |buf| { return false; }
      producer := Copying(buf, 0, head);
      ok := true;
    }

    /** Usart3_Stream_TxSend; meanwhile(i) is what happens before the i-th byte is copied and, for i = |buf|,
        before the second critical section. A null buffer is an empty one. */
    method TxSend(buf: seq<bv8>, meanwhile: nat -> seq<bool>) returns (ok: bool, ghost trace: seq<Step>)
      requires Inv(State()) && producer.Idle?
      modifies this, ring
      ensures Inv(State()) && State() == Run(old(State()), trace) && producer.Idle?
      ensures ok <==> buf != [] && |old(accepted)| - |old(wire)| + old(sent) + |buf| < LEN
      ensures accepted == old(accepted) + (if ok then buf else [])
      ensures !ok ==> State() == old(State())
    {
      hide Inv, Next, Starts, Transfer, Refused;
      ghost var start := State();
      RefusedIff(start, buf);
      ok := Reserve(buf);
      if !ok { StillRefused(start, buf); return false, []; }
      trace := [Begin(buf)];
      RunOne(start, Begin(buf));
      var h := head;
      for i := 0 to |buf|
        invariant Inv(State()) && State() == Run(start, trace)
        invariant producer == Copying(buf, i, h) && accepted == old(accepted)
      {
        ghost var t := Meanwhile(meanwhile(i));
        h := CopyOne(h, buf[i]);
        trace := Extend(start, trace, t, CopyByte);
      }
      ghost var t := Meanwhile(meanwhile(|buf|));
      PublishHead(h);
      trace := Extend(start, trace, t, Publish);
    }
  }

  lemma BeginIs(s: Tx, buf: seq<bv8>)
    requires Inv(s) && s.producer.Idle?
    ensures Shaped(s) && Next(s, Begin(buf)) == if Refused(s, |buf|) then s else s.(producer := Copying(buf, 0, s.head))
  {
  }

  lemma StillRefused(s: Tx, buf: seq<bv8>)
    requires Inv(s) && Refused(s, |buf|)
    ensures Next(s, Begin(buf)) == s && Run(s, []) == s
  {
  }

  lemma RunOne(s: Tx, step: Step)
    requires Inv(s)
    ensures Shaped(s) && Run(s, [step]) == Next(s, step)
  {
    assert [step][..0] == [];
    assert Run(s, []) == s;
  }

  lemma Extend(s: Tx, trace: seq<Step>, more: seq<Step>, last: Step) returns (longer: seq<Step>)
    requires Inv(s)
    ensures var r := Run(Run(s, trace), more); Shaped(r) && Run(s, longer) == Next(r, last)
  {
    longer := trace + more + [last];
    RunAppend(s, trace, more);
    RunAppend(s, trace + more, [last]);
    RunOne(Run(s, trace + more), last);
  }
}
