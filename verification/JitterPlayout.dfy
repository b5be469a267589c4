/**
  When the jitter buffer keeps a packet and when it plays one, told by what has been pushed
  and played before: no theorem here speaks of the buffer's flags.
 */
module JitterPlayout {
  import opened Basics
  import opened JitterModel

  lemma {:induction false} OneMore(b: Buffer, ops: seq<Op>, op: Op)
    ensures RunState(b, ops + [op]) == StepBuffer(RunState(b, ops), op)
    ensures Played(b, ops + [op]) == Played(b, ops) + Output(RunState(b, ops), op)
  {
    assert (ops + [op])[..|ops|] == ops;
  }

  lemma {:induction false} DepthStays(b: Buffer, ops: seq<Op>)
    ensures RunState(b, ops).depth == b.depth
  {
    if ops != [] { DepthStays(b, ops[..|ops| - 1]); }
  }

  /**
    A pop plays the first held packet exactly when one is held and either something has been
    played before or as many as the depth are held; otherwise it changes nothing.
   */
  lemma {:induction false} PopPlaysExactly(b: Buffer, ops: seq<Op>)
    requires Fresh(b) && NoReset(ops)
    ensures var held := RunState(b, ops).packets;
            if held != [] && (Played(b, ops) != [] || |held| >= b.depth) then
              Played(b, ops + [DoPop]) == Played(b, ops) + [held[0]] && RunState(b, ops + [DoPop]).packets == held[1..]
            else Played(b, ops + [DoPop]) == Played(b, ops) && RunState(b, ops + [DoPop]) == RunState(b, ops)
  {
    OneMore(b, ops, DoPop);
    DepthStays(b, ops);
    RunChains(b, ops);
  }

  /** No held packet has p's number, and p does not lie behind what has been played. */
  ghost predicate Keepable(held: seq<Packet>, out: seq<Packet>, p: Packet) {
    && (forall q <- held :: q.seqNo != p.seqNo)
    && (out == [] || Ahead(p.seqNo, Next16(out[|out| - 1].seqNo)) < 0x8000)
  }

  lemma AcceptsKeepable(s: Buffer, out: seq<Packet>, p: Packet)
    requires InStep(s, out)
    ensures Accepts(s, p) <==> Keepable(s.packets, out, p)
  {
    assert Duplicate(s.packets, p) <==> exists q <- s.packets :: q.seqNo == p.seqNo;
  }

  lemma PushKeeps(s: Buffer, p: Packet)
    ensures multiset(Push(s, p).packets) == multiset(s.packets) + (if Accepts(s, p) then multiset{p} else multiset{})
  {
    InsertAddsOne(s.packets, p);
  }

  /** A push adds its packet exactly when it can be kept; nothing else is added, lost or played. */
  lemma {:induction false} PushKeepsExactly(b: Buffer, ops: seq<Op>, p: Packet)
    requires Fresh(b) && NoReset(ops)
    ensures var held, out := RunState(b, ops).packets, Played(b, ops);
            && multiset(RunState(b, ops + [DoPush(p)]).packets) ==
               multiset(held) + (if Keepable(held, out, p) then multiset{p} else multiset{})
            && Played(b, ops + [DoPush(p)]) == out
  {
    OneMore(b, ops, DoPush(p));
    RunChains(b, ops);
    AcceptsKeepable(RunState(b, ops), Played(b, ops), p);
    PushKeeps(RunState(b, ops), p);
  }

  function Pops(n: nat): seq<Op> { seq(n, i => DoPop) }

  function Min(a: int, b: int): int { if a < b then a else b }

  /** The run `later` has played the first k of the packets held at an earlier time, and holds the rest. */
  ghost predicate HasDrained(b: Buffer, later: seq<Op>, out: seq<Packet>, held: seq<Packet>, k: nat)
    requires k <= |held|
  {
    Played(b, later) == out + held[..k] && RunState(b, later).packets == held[k..]
  }

  lemma NoPops(ops: seq<Op>)
    ensures ops + Pops(0) == ops
  {
  }

  lemma OnePopMore(ops: seq<Op>, n: nat)
    requires n > 0
    ensures ops + Pops(n) == (ops + Pops(n - 1)) + [DoPop]
    ensures NoReset(ops) ==> NoReset(ops + Pops(n - 1))
  {
  }

  lemma TakeOne(out: seq<Packet>, held: seq<Packet>, k: nat)
    requires k < |held|
    ensures held[k..] == [held[k]] + held[k + 1..] && (out + held[..k]) + [held[k]] == out + held[..k + 1]
  {
  }

  lemma {:induction false} DrainsOneMore(b: Buffer, later: seq<Op>, out: seq<Packet>, held: seq<Packet>, k: nat)
    requires Fresh(b) && NoReset(later) && k <= |held| && HasDrained(b, later, out, held, k)
    requires out != [] || k > 0 || |held| >= b.depth
    ensures HasDrained(b, later + [DoPop], out, held, Min(k + 1, |held|))
  {
    PopPlaysExactly(b, later);
    if k < |held| { TakeOne(out, held, k); }
  }

  /** Once playout has begun, or can begin, n pops play the first n held packets in order, or all there are. */
  lemma {:induction false} DrainsInOrder(b: Buffer, ops: seq<Op>, n: nat)
    requires Fresh(b) && NoReset(ops)
    requires Played(b, ops) != [] || |RunState(b, ops).packets| >= b.depth
    ensures var held := RunState(b, ops).packets;
            HasDrained(b, ops + Pops(n), Played(b, ops), held, Min(n, |held|))
    decreases n
  {
    var held := RunState(b, ops).packets;
    NoPops(ops);
    if n > 0 {
      DrainsInOrder(b, ops, n - 1);
      OnePopMore(ops, n);
      DrainsOneMore(b, ops + Pops(n - 1), Played(b, ops), held, Min(n - 1, |held|));
    }
  }

  /** Nothing is played before as many packets as the depth are held at once. */
  lemma {:induction false} SilentUntilFilled(b: Buffer, ops: seq<Op>)
    requires Fresh(b) && NoReset(ops)
    requires forall i :: 0 <= i <= |ops| ==> |RunState(b, ops[..i]).packets| < b.depth
    ensures Played(b, ops) == []
  {
    if ops != [] {
      var before, op := ops[..|ops| - 1], ops[|ops| - 1];
      forall i | 0 <= i <= |before| ensures |RunState(b, before[..i]).packets| < b.depth {
        assert before[..i] == ops[..i];
      }
      SilentUntilFilled(b, before);
      assert ops == before + [op] && before == ops[..|before|];
      if op.DoPop? { PopPlaysExactly(b, before); } else { OneMore(b, before, op); }
    }
  }

  // ---------------------------------------------------------------- statistics

  function Pushes(ops: seq<Op>): nat {
    if ops == [] then 0 else Pushes(ops[..|ops| - 1]) + if ops[|ops| - 1].DoPush? then 1 else 0
  }

  /** The statistics since the last reset: every push is received, every output played, and the rest dropped or held. */
  lemma {:induction false} StatsExactly(depth: int, ops: seq<Op>)
    requires NoReset(ops)
    ensures var s, out := RunState(New(depth), ops), Played(New(depth), ops);
            && s.received == Pushes(ops) && s.played == |out| && s.dropped == Pushes(ops) - |out| - |s.packets|
            && (1 <= depth <= MAX_JITTER_DEPTH ==> s.depth == depth)
  {
    if ops != [] { StatsExactly(depth, ops[..|ops| - 1]); }
  }

  lemma {:induction false} InitializedExactly(depth: int, ops: seq<Op>)
    requires NoReset(ops)
    ensures RunState(New(depth), ops).initialized <==> Pushes(ops) > 0
  {
    if ops != [] { InitializedExactly(depth, ops[..|ops| - 1]); }
  }

  /** A push counts as reordered exactly when it is kept and a packet further on is already held. */
  lemma ReordersExactly(b: Buffer, p: Packet, base: Seq16)
    requires IsSortedSet(b, base) && (!b.playing ==> Ahead(p.seqNo, base) < 0x8000)
    ensures var start := HalfStart(b, base);
            Push(b, p).reorders == b.reorders +
              if p in Push(b, p).packets && p !in b.packets &&
                 (exists q <- b.packets :: Ahead(q.seqNo, start) > Ahead(p.seqNo, start)) then 1 else 0
  {
    var start := HalfStart(b, base);
    if Accepts(b, p) {
      PlaceSplits(b.packets, p, start);
      InsertShape(b.packets, p);
      var k := Place(b.packets, p.seqNo);
      assert Insert(b.packets, p)[k] == p;
      if q :| q in b.packets && Ahead(q.seqNo, start) > Ahead(p.seqNo, start) {
        var i :| 0 <= i < |b.packets| && b.packets[i] == q;
        assert i >= k;
      }
      if k < |b.packets| { assert b.packets[k] in b.packets; }
    }
  }

  // ---------------------------------------------------------------- reset

  /** Two buffers that differ at most in a playout point nobody looks at before playout begins. */
  predicate Alike(a: Buffer, b: Buffer) {
    a == b.(nextSeq := a.nextSeq) && (b.playing ==> a == b)
  }

  lemma StepAlike(a: Buffer, b: Buffer, op: Op)
    requires Alike(a, b)
    ensures Alike(StepBuffer(a, op), StepBuffer(b, op)) && Output(a, op) == Output(b, op)
  {
  }

  lemma {:induction false} RunAlike(a: Buffer, b: Buffer, ops: seq<Op>)
    requires Alike(a, b)
    ensures Alike(RunState(a, ops), RunState(b, ops)) && Played(a, ops) == Played(b, ops)
  {
    if ops != [] {
      var before := ops[..|ops| - 1];
      RunAlike(a, b, before);
      StepAlike(RunState(a, before), RunState(b, before), ops[|ops| - 1]);
    }
  }

  /** Whatever has happened before a reset, the buffer then plays and counts as a new one does. */
  lemma {:induction false} ResetStartsAfresh(depth: int, before: seq<Op>, after: seq<Op>)
    ensures var b := RunState(New(depth), before + [DoReset]);
            && Played(b, after) == Played(New(depth), after)
            && Alike(RunState(b, after), RunState(New(depth), after))
  {
    OneMore(New(depth), before, DoReset);
    DepthStays(New(depth), before);
    RunAlike(RunState(New(depth), before + [DoReset]), New(depth), after);
  }
}
