/**
  The jitter buffer on values: the reordering list, its modular arithmetic, and what a
  whole run of Push and Pop plays out.

  RTP sequence numbers are 16 bits wide and compared by the sign of their 16-bit
  difference, an order that is not transitive on the whole circle. `lap` counts how often
  the sender's numbering had wrapped when it sent the packet; only theorems read it.
 */
module JitterModel {
  import opened Basics

  type Seq16 = x: int | 0 <= x < 0x1_0000

  datatype Packet = Packet(seqNo: Seq16, timestamp: int, payload: seq<Byte>, lap: int)

  const MAX_JITTER_DEPTH := 10
  const MAX_SEQUENCE_GAP := 50

  datatype Buffer = Buffer(
    depth: int, packets: seq<Packet>, nextSeq: Seq16, initialized: bool, playing: bool,
    received: int, dropped: int, played: int, reorders: int)

  // ---------------------------------------------------------------- sequence arithmetic

  /** a - b on uint16: how far `a` lies ahead of `b`, going up and around. */
  function Ahead(a: Seq16, b: Seq16): Seq16 { if a >= b then a - b else a - b + 0x1_0000 }

  /** a + 1 on uint16. */
  function Next16(a: Seq16): Seq16 { if a == 0xFFFF then 0 else a + 1 }

  lemma ModularArithmetic(a: Seq16, b: Seq16)
    ensures Ahead(a, b) == (a - b) % 0x1_0000
    ensures Next16(a) == (a + 1) % 0x1_0000
  {
  }

  /** int16(a - b): the two's complement reading of the 16-bit difference. */
  function Diff16(a: Seq16, b: Seq16): int {
    if Ahead(a, b) < 0x8000 then Ahead(a, b) else Ahead(a, b) - 0x1_0000
  }

  predicate SeqAfter(a: Seq16, b: Seq16) { Diff16(a, b) > 0 }

  predicate SeqBefore(a: Seq16, b: Seq16) { Diff16(a, b) < 0 }

  /** The absolute difference; that of -32768 is 32768 once read as unsigned. */
  function SeqDiff(a: Seq16, b: Seq16): int {
    if Diff16(a, b) < 0 then -Diff16(a, b) else Diff16(a, b)
  }

  // ---------------------------------------------------------------- the buffer

  function New(depth: int): Buffer {
    Buffer(if depth < 1 then 1 else if depth > MAX_JITTER_DEPTH then MAX_JITTER_DEPTH else depth,
           [], 0, false, false, 0, 0, 0, 0)
  }

  predicate Stale(b: Buffer, p: Packet) { b.playing && SeqBefore(p.seqNo, b.nextSeq) }

  predicate Duplicate(packets: seq<Packet>, p: Packet) {
    exists i :: 0 <= i < |packets| && packets[i].seqNo == p.seqNo
  }

  predicate Accepts(b: Buffer, p: Packet) { !Stale(b, p) && !Duplicate(b.packets, p) }

  /** The first place whose packet the new one does not come after; the end when there is none. */
  function Place(packets: seq<Packet>, seqNo: Seq16): (k: nat)
    ensures k <= |packets|
    ensures forall i :: 0 <= i < k ==> SeqAfter(seqNo, packets[i].seqNo)
    ensures k < |packets| ==> !SeqAfter(seqNo, packets[k].seqNo)
  {
    if packets == [] || !SeqAfter(seqNo, packets[0].seqNo) then 0 else 1 + Place(packets[1..], seqNo)
  }

  function Insert(packets: seq<Packet>, p: Packet): seq<Packet> {
    var k := Place(packets, p.seqNo);
    packets[..k] + [p] + packets[k..]
  }

  lemma {:induction false} InsertShape(packets: seq<Packet>, p: Packet)
    ensures var k, q := Place(packets, p.seqNo), Insert(packets, p);
            && |q| == |packets| + 1
            && forall i :: 0 <= i < |q| ==> q[i] == if i < k then packets[i] else if i == k then p else packets[i - 1]
  {
  }

  lemma InsertAddsOne(packets: seq<Packet>, p: Packet)
    ensures multiset(Insert(packets, p)) == multiset(packets) + multiset{p}
  {
    var k := Place(packets, p.seqNo);
    assert packets == packets[..k] + packets[k..];
  }

  function Push(b: Buffer, p: Packet): Buffer {
    var b1 := b.(received := b.received + 1, initialized := true);
    if !Accepts(b, p) then b1.(dropped := b.dropped + 1)
    else b1.(packets := Insert(b.packets, p),
             reorders := b.reorders + if Place(b.packets, p.seqNo) < |b.packets| then 1 else 0)
  }

  predicate Ready(b: Buffer) { b.packets != [] && (b.playing || |b.packets| >= b.depth) }

  function Pop(b: Buffer): Buffer {
    if !Ready(b) then b
    else b.(playing := true, packets := b.packets[1..], nextSeq := Next16(b.packets[0].seqNo), played := b.played + 1)
  }

  function Reset(b: Buffer): Buffer {
    b.(packets := [], initialized := false, playing := false, received := 0, dropped := 0, played := 0, reorders := 0)
  }

  // ---------------------------------------------------------------- runs

  datatype Op = DoPush(packet: Packet) | DoPop | DoReset

  function StepBuffer(b: Buffer, op: Op): Buffer {
    match op
    case DoPush(p) => Push(b, p)
    case DoPop => Pop(b)
    case DoReset => Reset(b)
  }

  function Output(b: Buffer, op: Op): seq<Packet> {
    if op.DoPop? && Ready(b) then [b.packets[0]] else []
  }

  function RunState(b: Buffer, ops: seq<Op>): Buffer {
    if ops == [] then b else StepBuffer(RunState(b, ops[..|ops| - 1]), ops[|ops| - 1])
  }

  function Played(b: Buffer, ops: seq<Op>): seq<Packet> {
    if ops == [] then []
    else Played(b, ops[..|ops| - 1]) + Output(RunState(b, ops[..|ops| - 1]), ops[|ops| - 1])
  }

  /** A buffer as New and Reset leave it. */
  predicate Fresh(b: Buffer) { b.packets == [] && !b.playing }

  predicate NoReset(ops: seq<Op>) { forall i :: 0 <= i < |ops| ==> !ops[i].DoReset? }

  // ---------------------------------------------------------------- accounting

  predicate Balanced(b: Buffer) { b.received == b.dropped + b.played + |b.packets| && 0 <= b.reorders }

  lemma {:induction false} AlwaysBalanced(depth: int, ops: seq<Op>)
    ensures Balanced(RunState(New(depth), ops))
    ensures 1 <= RunState(New(depth), ops).depth <= MAX_JITTER_DEPTH
  {
    if ops != [] {
      AlwaysBalanced(depth, ops[..|ops| - 1]);
    }
  }

  // ---------------------------------------------------------------- order without any assumption

  /**
    Each packet is ahead of the one before it, by at most half the circle; the head is not
    behind the playout point.
   */
  predicate Chained(b: Buffer) {
    && (forall i :: 0 < i < |b.packets| ==> 1 <= Ahead(b.packets[i].seqNo, b.packets[i - 1].seqNo) <= 0x8000)
    && (b.playing && b.packets != [] ==> Ahead(b.packets[0].seqNo, b.nextSeq) < 0x8000)
  }

  lemma InsertChains(packets: seq<Packet>, p: Packet)
    requires forall i :: 0 < i < |packets| ==> 1 <= Ahead(packets[i].seqNo, packets[i - 1].seqNo) <= 0x8000
    requires !Duplicate(packets, p)
    ensures var q := Insert(packets, p);
            && (forall i :: 0 < i < |q| ==> 1 <= Ahead(q[i].seqNo, q[i - 1].seqNo) <= 0x8000)
            && (q[0] == p || (packets != [] && q[0] == packets[0]))
  {
    InsertShape(packets, p);
    var k, q := Place(packets, p.seqNo), Insert(packets, p);
    forall i | 0 < i < |q| ensures 1 <= Ahead(q[i].seqNo, q[i - 1].seqNo) <= 0x8000 {
      if i == k {
        assert SeqAfter(p.seqNo, packets[i - 1].seqNo);
      } else if i == k + 1 {
        assert !SeqAfter(p.seqNo, packets[k].seqNo) && packets[k].seqNo != p.seqNo;
      } else {
        var j := if i < k then i else i - 1;
        assert q[i] == packets[j] && q[i - 1] == packets[j - 1];
      }
    }
  }

  lemma PushChains(b: Buffer, p: Packet)
    requires Chained(b)
    ensures Chained(Push(b, p))
  {
    if Accepts(b, p) {
      InsertChains(b.packets, p);
    }
  }

  lemma StepChains(b: Buffer, op: Op)
    requires Chained(b)
    ensures Chained(StepBuffer(b, op))
  {
    if op.DoPush? { PushChains(b, op.packet); }
  }

  /** What has been played last sits one behind the playout point. */
  predicate InStep(s: Buffer, out: seq<Packet>) {
    && (out == [] <==> !s.playing)
    && (out != [] ==> s.nextSeq == Next16(out[|out| - 1].seqNo))
  }

  lemma StaysInStep(s: Buffer, out: seq<Packet>, op: Op)
    requires InStep(s, out) && !op.DoReset?
    ensures InStep(StepBuffer(s, op), out + Output(s, op))
  {
  }

  lemma {:induction false} RunChains(b: Buffer, ops: seq<Op>)
    requires Fresh(b) && NoReset(ops)
    ensures Chained(RunState(b, ops)) && InStep(RunState(b, ops), Played(b, ops))
  {
    if ops != [] {
      var before, op := ops[..|ops| - 1], ops[|ops| - 1];
      RunChains(b, before);
      StepChains(RunState(b, before), op);
      StaysInStep(RunState(b, before), Played(b, before), op);
    }
  }

  /** Playout only goes forward: each step advances by at least one and at most half the circle. */
  lemma {:induction false} PlayoutAdvances(b: Buffer, ops: seq<Op>, i: nat)
    requires Fresh(b) && NoReset(ops)
    requires i + 1 < |Played(b, ops)|
    ensures 1 <= Ahead(Played(b, ops)[i + 1].seqNo, Played(b, ops)[i].seqNo) <= 0x8000
  {
    var before := ops[..|ops| - 1];
    if i + 1 < |Played(b, before)| {
      PlayoutAdvances(b, before, i);
    } else {
      RunChains(b, before);
    }
  }

  /** The distance playout covers between the outputs i and j, counted along the way. */
  function Advance(out: seq<Packet>, i: nat, j: nat): int
    requires i <= j < |out|
    decreases j
  {
    if i == j then 0 else Advance(out, i, j - 1) + Ahead(out[j].seqNo, out[j - 1].seqNo)
  }

  lemma {:induction false} AdvanceIsDistance(out: seq<Packet>, i: nat, j: nat)
    requires i <= j < |out|
    requires forall k :: i < k <= j ==> 1 <= Ahead(out[k].seqNo, out[k - 1].seqNo) <= 0x8000
    ensures j - i <= Advance(out, i, j) <= 0x8000 * (j - i)
    ensures (out[i].seqNo + Advance(out, i, j)) % 0x1_0000 == out[j].seqNo
    decreases j
  {
    if i < j {
      AdvanceIsDistance(out, i, j - 1);
    }
  }

  /** A 16-bit sequence number is played again only after playout has gone all the way around. */
  lemma {:induction false} NoReplay(b: Buffer, ops: seq<Op>, i: nat, j: nat)
    requires Fresh(b) && NoReset(ops)
    requires i < j < |Played(b, ops)|
    requires Played(b, ops)[i].seqNo == Played(b, ops)[j].seqNo
    ensures Advance(Played(b, ops), i, j) >= 0x1_0000 && j >= i + 2
  {
    var out := Played(b, ops);
    forall k | i < k <= j ensures 1 <= Ahead(out[k].seqNo, out[k - 1].seqNo) <= 0x8000 {
      PlayoutAdvances(b, ops, k - 1);
    }
    AdvanceIsDistance(out, i, j);
  }

  // ---------------------------------------------------------------- the sorted set

  /** All packets lie in the half circle that starts at `base`. */
  predicate Within(packets: seq<Packet>, base: Seq16) {
    forall i :: 0 <= i < |packets| ==> Ahead(packets[i].seqNo, base) < 0x8000
  }

  /** They are sorted by their distance from `base`, and so have different numbers. */
  predicate SortedFrom(packets: seq<Packet>, base: Seq16) {
    forall i, j :: 0 <= i < j < |packets| ==> Ahead(packets[i].seqNo, base) < Ahead(packets[j].seqNo, base)
  }

  /** Inside one half circle the 16-bit comparison is the order by distance. */
  lemma AfterMeansFurther(a: Seq16, b: Seq16, base: Seq16)
    requires Ahead(a, base) < 0x8000 && Ahead(b, base) < 0x8000
    ensures SeqAfter(a, b) <==> Ahead(a, base) > Ahead(b, base)
  {
  }

  /** Inserting a packet splits a sorted half circle into what lies nearer and what lies further. */
  lemma {:induction false} PlaceSplits(packets: seq<Packet>, p: Packet, base: Seq16)
    requires Within(packets, base) && SortedFrom(packets, base)
    requires Ahead(p.seqNo, base) < 0x8000 && !Duplicate(packets, p)
    ensures forall i :: 0 <= i < |packets| ==>
                          if i < Place(packets, p.seqNo) then Ahead(packets[i].seqNo, base) < Ahead(p.seqNo, base)
                          else Ahead(packets[i].seqNo, base) > Ahead(p.seqNo, base)
  {
    var k := Place(packets, p.seqNo);
    forall i | 0 <= i < |packets|
      ensures if i < k then Ahead(packets[i].seqNo, base) < Ahead(p.seqNo, base)
              else Ahead(packets[i].seqNo, base) > Ahead(p.seqNo, base)
    {
      AfterMeansFurther(p.seqNo, packets[i].seqNo, base);
      assert packets[i].seqNo != p.seqNo;
      if k < i { AfterMeansFurther(p.seqNo, packets[k].seqNo, base); }
    }
  }

  /** Insertion keeps a half circle sorted. */
  lemma InsertSorted(packets: seq<Packet>, p: Packet, base: Seq16)
    requires Within(packets, base) && SortedFrom(packets, base)
    requires Ahead(p.seqNo, base) < 0x8000 && !Duplicate(packets, p)
    ensures Within(Insert(packets, p), base) && SortedFrom(Insert(packets, p), base)
  {
    PlaceSplits(packets, p, base);
    InsertShape(packets, p);
  }

  /** Where the half circle of a buffer starts: at the playout point once playing, at the given base before. */
  function HalfStart(b: Buffer, base: Seq16): Seq16 { if b.playing then b.nextSeq else base }

  /** The buffer is the sorted set of the packets it holds. */
  predicate IsSortedSet(b: Buffer, base: Seq16) {
    Within(b.packets, HalfStart(b, base)) && SortedFrom(b.packets, HalfStart(b, base))
  }

  /** Push adds exactly a packet that is neither stale nor a duplicate, and keeps the set sorted. */
  lemma PushRefinesAdd(b: Buffer, p: Packet, base: Seq16)
    requires IsSortedSet(b, base)
    requires !b.playing ==> Ahead(p.seqNo, base) < 0x8000
    ensures IsSortedSet(Push(b, p), base)
    ensures multiset(Push(b, p).packets) ==
            multiset(b.packets) + (if Accepts(b, p) then multiset{p} else multiset{})
    ensures Accepts(b, p) <==>
              (forall q <- b.packets :: q.seqNo != p.seqNo) && (b.playing ==> Ahead(p.seqNo, b.nextSeq) < 0x8000)
  {
    if Accepts(b, p) {
      InsertSorted(b.packets, p, HalfStart(b, base));
      InsertAddsOne(b.packets, p);
    }
  }

  /** Pop removes exactly the packet nearest to the playout point, and moves that point just past it. */
  lemma PopRefinesRemoveMin(b: Buffer, base: Seq16)
    requires IsSortedSet(b, base) && Ready(b)
    ensures IsSortedSet(Pop(b), base)
    ensures forall p :: p in b.packets ==>
                          Ahead(b.packets[0].seqNo, HalfStart(b, base)) <= Ahead(p.seqNo, HalfStart(b, base))
    ensures multiset(Pop(b).packets) == multiset(b.packets) - multiset{b.packets[0]}
    ensures forall p :: p in Pop(b).packets ==>
                          Ahead(p.seqNo, Pop(b).nextSeq) ==
                          Ahead(p.seqNo, HalfStart(b, base)) - Ahead(b.packets[0].seqNo, HalfStart(b, base)) - 1
  {
    var q := b.packets;
    assert q == [q[0]] + q[1..];
    forall i | 1 <= i < |q|
      ensures Ahead(q[i].seqNo, Next16(q[0].seqNo)) ==
              Ahead(q[i].seqNo, HalfStart(b, base)) - Ahead(q[0].seqNo, HalfStart(b, base)) - 1
    {
      assert Ahead(q[0].seqNo, HalfStart(b, base)) < Ahead(q[i].seqNo, HalfStart(b, base));
    }
  }

  /** Every packet pushed before playout starts lies in the half circle at `base`. */
  predicate SpansHalf(b: Buffer, ops: seq<Op>, base: Seq16) {
    forall i :: 0 <= i < |ops| && ops[i].DoPush? && !RunState(b, ops[..i]).playing ==>
                  Ahead(ops[i].packet.seqNo, base) < 0x8000
  }

  lemma SpansHalfPrefix(b: Buffer, ops: seq<Op>, base: Seq16)
    requires ops != [] && SpansHalf(b, ops, base)
    ensures SpansHalf(b, ops[..|ops| - 1], base)
  {
    var before := ops[..|ops| - 1];
    forall i | 0 <= i < |before| ensures before[..i] == ops[..i] && before[i] == ops[i] {
    }
  }

  /** Over whole runs the slice-shifting list stays the sorted set. */
  lemma {:induction false} RunStaysSorted(b: Buffer, ops: seq<Op>, base: Seq16)
    requires Fresh(b) && NoReset(ops) && SpansHalf(b, ops, base)
    ensures IsSortedSet(RunState(b, ops), base)
  {
    if ops != [] {
      var before, op := ops[..|ops| - 1], ops[|ops| - 1];
      SpansHalfPrefix(b, ops, base);
      RunStaysSorted(b, before, base);
      var s := RunState(b, before);
      if op.DoPush? {
        PushRefinesAdd(s, op.packet, base);
      } else if Ready(s) {
        PopRefinesRemoveMin(s, base);
      }
    }
  }

  /** Filling a fresh buffer, in order. */
  function Fill(b: Buffer, arrivals: seq<Packet>): Buffer {
    if arrivals == [] then b else Push(Fill(b, arrivals[..|arrivals| - 1]), arrivals[|arrivals| - 1])
  }

  lemma DuplicateStays(packets: seq<Packet>, p: Packet, e: Packet)
    ensures Duplicate(Insert(packets, p), p)
    ensures Duplicate(packets, e) ==> Duplicate(Insert(packets, p), e)
  {
    InsertShape(packets, p);
    var k, q := Place(packets, p.seqNo), Insert(packets, p);
    assert q[k] == p;
    if i :| 0 <= i < |packets| && packets[i].seqNo == e.seqNo {
      assert q[if i < k then i else i + 1] == packets[i];
    }
  }

  lemma {:induction false} FillKeepsNumbers(b: Buffer, arrivals: seq<Packet>, i: nat)
    requires Fresh(b) && i < |arrivals|
    ensures Duplicate(Fill(b, arrivals).packets, arrivals[i])
  {
    var before, p := arrivals[..|arrivals| - 1], arrivals[|arrivals| - 1];
    FillNotPlaying(b, before);
    if i < |before| { FillKeepsNumbers(b, before, i); }
    DuplicateStays(Fill(b, before).packets, p, arrivals[i]);
  }

  lemma {:induction false} FillNotPlaying(b: Buffer, arrivals: seq<Packet>)
    requires Fresh(b)
    ensures !Fill(b, arrivals).playing
  {
    if arrivals != [] { FillNotPlaying(b, arrivals[..|arrivals| - 1]); }
  }

  lemma {:induction false} FillSorted(b: Buffer, arrivals: seq<Packet>, base: Seq16)
    requires Fresh(b) && Within(arrivals, base)
    ensures Within(Fill(b, arrivals).packets, base) && SortedFrom(Fill(b, arrivals).packets, base)
  {
    if arrivals != [] {
      var before, p := arrivals[..|arrivals| - 1], arrivals[|arrivals| - 1];
      FillSorted(b, before, base);
      var s := Fill(b, before);
      if Accepts(s, p) { InsertSorted(s.packets, p, base); }
    }
  }

  /**
    Exactly when the list filled before playout is sorted from its own head: when the
    arrivals span less than half the circle, from some base.
   */
  lemma {:induction false} FillSortedExactly(b: Buffer, arrivals: seq<Packet>)
    requires Fresh(b) && arrivals != []
    ensures var q := Fill(b, arrivals).packets;
            q != [] &&
            (Within(q, q[0].seqNo) && SortedFrom(q, q[0].seqNo) <==> exists base: Seq16 :: Within(arrivals, base))
  {
    var q := Fill(b, arrivals).packets;
    FillKeepsNumbers(b, arrivals, 0);
    if Within(q, q[0].seqNo) {
      forall i | 0 <= i < |arrivals| ensures Ahead(arrivals[i].seqNo, q[0].seqNo) < 0x8000 {
        FillKeepsNumbers(b, arrivals, i);
      }
      assert Within(arrivals, q[0].seqNo);
    }
    if base: Seq16 :| Within(arrivals, base) {
      FillSorted(b, arrivals, base);
      forall i | 0 <= i < |q|
        ensures Ahead(q[i].seqNo, q[0].seqNo) == Ahead(q[i].seqNo, base) - Ahead(q[0].seqNo, base)
      {
        assert i > 0 ==> Ahead(q[0].seqNo, base) < Ahead(q[i].seqNo, base);
      }
    }
  }

  /** Three packets around the circle: the list puts 60000 first although it comes after 30000. */
  lemma AroundTheCircle(a: Packet, b: Packet, c: Packet)
    requires a.seqNo == 0 && b.seqNo == 30000 && c.seqNo == 60000
    ensures Fill(New(3), [a, b, c]).packets == [c, a, b]
    ensures SeqAfter(c.seqNo, b.seqNo)
    ensures !Within([c, a, b], c.seqNo)
  {
    assert [a, b, c][..2] == [a, b] && [a, b][..1] == [a] && [a][..0] == [];
    assert Fill(New(3), [a]).packets == [a];
    assert Place([a], 30000) == 1;
    assert Fill(New(3), [a, b]).packets == [a, b];
    assert !Duplicate([a, b], c);
    assert Place([a, b], 60000) == 0;
    assert Ahead([c, a, b][2].seqNo, c.seqNo) >= 0x8000;
  }

  // ---------------------------------------------------------------- source order

  /** The place of a packet in its sender's stream. */
  function Origin(p: Packet): int { p.lap * 0x1_0000 + p.seqNo }

  /**
    The network delays and hurries packets by less than half the circle: each arrives
    within 32768 places of the one just past what has been played. Those that arrive
    before anything has been played lie within 32768 places from `base`.
   */
  predicate OnTime(out: seq<Packet>, p: Packet, base: int) {
    if out == [] then base <= Origin(p) < base + 0x8000
    else -0x8000 <= Origin(p) - (Origin(out[|out| - 1]) + 1) < 0x8000
  }

  predicate Timely(b: Buffer, ops: seq<Op>, base: int) {
    forall i :: 0 <= i < |ops| && ops[i].DoPush? ==> OnTime(Played(b, ops[..i]), ops[i].packet, base)
  }

  lemma TimelyPrefix(b: Buffer, ops: seq<Op>, base: int)
    requires ops != [] && Timely(b, ops, base)
    ensures Timely(b, ops[..|ops| - 1], base)
  {
    var before := ops[..|ops| - 1];
    forall i | 0 <= i < |before| ensures before[..i] == ops[..i] && before[i] == ops[i] {
    }
  }

  /** The buffered packets by their true places: all past what has been played, in order. */
  predicate TrueOrder(packets: seq<Packet>, next: int) {
    && (forall i :: 0 <= i < |packets| ==> next <= Origin(packets[i]) < next + 0x8000)
    && (forall i, j :: 0 <= i < j < |packets| ==> Origin(packets[i]) < Origin(packets[j]))
  }

  /** The place just past what has been played, or `base` before that. */
  function PlayPoint(out: seq<Packet>, base: int): int {
    if out == [] then base else Origin(out[|out| - 1]) + 1
  }

  lemma PlacesAgree(p: Packet, q: Packet)
    ensures -0x8000 <= Origin(p) - Origin(q) < 0x8000 ==> Diff16(p.seqNo, q.seqNo) == Origin(p) - Origin(q)
    ensures -0x8000 <= Origin(p) - Origin(q) - 1 < 0x8000 ==>
              Diff16(p.seqNo, Next16(q.seqNo)) == Origin(p) - Origin(q) - 1
  {
  }

  lemma {:induction false} PlaceSplitsPlaces(packets: seq<Packet>, p: Packet, next: int)
    requires TrueOrder(packets, next) && next <= Origin(p) < next + 0x8000
    requires !Duplicate(packets, p)
    ensures forall i :: 0 <= i < |packets| ==>
                          if i < Place(packets, p.seqNo) then Origin(packets[i]) < Origin(p)
                          else Origin(packets[i]) > Origin(p)
  {
    var k := Place(packets, p.seqNo);
    forall i | 0 <= i < |packets|
      ensures if i < k then Origin(packets[i]) < Origin(p) else Origin(packets[i]) > Origin(p)
    {
      PlacesAgree(p, packets[i]);
      assert packets[i].seqNo != p.seqNo;
      if k < i { PlacesAgree(p, packets[k]); }
    }
  }

  lemma InsertTrueOrder(packets: seq<Packet>, p: Packet, next: int)
    requires TrueOrder(packets, next) && next <= Origin(p) < next + 0x8000
    requires !Duplicate(packets, p)
    ensures TrueOrder(Insert(packets, p), next)
  {
    PlaceSplitsPlaces(packets, p, next);
    InsertShape(packets, p);
  }

  /** The pushed packets of a run. */
  ghost predicate Pushed(ops: seq<Op>, p: Packet) {
    exists i :: 0 <= i < |ops| && ops[i] == DoPush(p)
  }

  lemma PushTrueOrder(s: Buffer, out: seq<Packet>, p: Packet, base: int)
    requires TrueOrder(s.packets, PlayPoint(out, base)) && OnTime(out, p, base)
    requires InStep(s, out)
    ensures TrueOrder(Push(s, p).packets, PlayPoint(out, base))
  {
    if Accepts(s, p) {
      if out != [] { PlacesAgree(p, out[|out| - 1]); }
      InsertTrueOrder(s.packets, p, PlayPoint(out, base));
    }
  }

  predicate InSourceOrder(out: seq<Packet>) {
    forall i, j :: 0 <= i < j < |out| ==> Origin(out[i]) < Origin(out[j])
  }

  lemma PopTrueOrder(s: Buffer, out: seq<Packet>, base: int)
    requires TrueOrder(s.packets, PlayPoint(out, base)) && InSourceOrder(out)
    ensures TrueOrder(Pop(s).packets, PlayPoint(out + Output(s, DoPop), base))
    ensures InSourceOrder(out + Output(s, DoPop))
  {
    if Ready(s) {
      assert out != [] ==> forall i :: 0 <= i < |out| ==> Origin(out[i]) <= Origin(out[|out| - 1]);
    }
  }

  /** Playout is in source order, and what is held lies past it. */
  lemma {:induction false} RunTrueOrder(b: Buffer, ops: seq<Op>, base: int)
    requires Fresh(b) && NoReset(ops) && Timely(b, ops, base)
    ensures TrueOrder(RunState(b, ops).packets, PlayPoint(Played(b, ops), base))
    ensures InSourceOrder(Played(b, ops))
  {
    if ops != [] {
      var before, op := ops[..|ops| - 1], ops[|ops| - 1];
      TimelyPrefix(b, ops, base);
      RunTrueOrder(b, before, base);
      RunChains(b, before);
      if op.DoPush? {
        PushTrueOrder(RunState(b, before), Played(b, before), op.packet, base);
      } else {
        PopTrueOrder(RunState(b, before), Played(b, before), base);
      }
    }
  }

  lemma {:induction false} HeldWerePushed(b: Buffer, ops: seq<Op>, p: Packet)
    requires Fresh(b) && p in RunState(b, ops).packets
    ensures Pushed(ops, p)
  {
    var before, op := ops[..|ops| - 1], ops[|ops| - 1];
    if p in RunState(b, before).packets {
      HeldWerePushed(b, before, p);
      var i :| 0 <= i < |before| && before[i] == DoPush(p);
      assert ops[i] == DoPush(p);
    } else {
      assert op == DoPush(p);
    }
  }

  /** Nothing is played that was not pushed. */
  lemma {:induction false} PlayedWerePushed(b: Buffer, ops: seq<Op>, p: Packet)
    requires Fresh(b) && p in Played(b, ops)
    ensures Pushed(ops, p)
  {
    var before := ops[..|ops| - 1];
    if p in Played(b, before) {
      PlayedWerePushed(b, before, p);
    } else {
      HeldWerePushed(b, before, p);
    }
    var i :| 0 <= i < |before| && before[i] == DoPush(p);
    assert ops[i] == DoPush(p);
  }

  /** Playout is a selection of the pushed packets in source order, each at most once. */
  lemma {:induction false} PlayedInSourceOrder(b: Buffer, ops: seq<Op>, base: int)
    requires Fresh(b) && NoReset(ops) && Timely(b, ops, base)
    ensures forall i, j :: 0 <= i < j < |Played(b, ops)| ==> Origin(Played(b, ops)[i]) < Origin(Played(b, ops)[j])
    ensures forall p <- Played(b, ops) :: Pushed(ops, p)
  {
    RunTrueOrder(b, ops, base);
    forall p <- Played(b, ops) ensures Pushed(ops, p) {
      PlayedWerePushed(b, ops, p);
    }
  }
}
