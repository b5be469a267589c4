/** The jitter buffer as it runs: Push, Pop and Reset change the list and the counters in place. */
module Jitter {
  import opened Basics
  import opened JitterModel

  class JitterBuffer {
    const depth: int
    var packets: seq<Packet>
    var nextSeq: Seq16
    var initialized: bool
    var playing: bool
    var received: int
    var dropped: int
    var played: int
    var reorders: int

    function View(): Buffer
      reads this
    {
      Buffer(depth, packets, nextSeq, initialized, playing, received, dropped, played, reorders)
    }

    constructor (depth: int)
      ensures View() == New(depth)
    {
      var clamped := depth;
      if clamped < 1 { clamped := 1; }
      if clamped > MAX_JITTER_DEPTH { clamped := MAX_JITTER_DEPTH; }
      this.depth := clamped;
      packets, nextSeq, initialized, playing := [], 0, false, false;
      received, dropped, played, reorders := 0, 0, 0, 0;
    }

    method Push(p: Packet)
      modifies this
      ensures View() == JitterModel.Push(old(View()), p)
    {
      received := received + 1;
      if !initialized { initialized := true; }
      if playing && SeqBefore(p.seqNo, nextSeq) {
        dropped := dropped + 1;
        return;
      }
      for i := 0 to |packets|
        invariant View() == old(View()).(received := old(received) + 1, initialized := true)
        invariant forall j :: 0 <= j < i ==> packets[j].seqNo != p.seqNo
      {
        if packets[i].seqNo == p.seqNo {
          dropped := dropped + 1;
          return;
        }
      }
      InsertInOrder(p);
    }

    /** The second loop of Push: shift the tail up by one at the first packet the new one does not follow. */
    method InsertInOrder(p: Packet)
      modifies this`packets, this`reorders
      ensures packets == Insert(old(packets), p)
      ensures reorders == old(reorders) + if Place(old(packets), p.seqNo) < |old(packets)| then 1 else 0
    {
      var i := 0;
      while i < |packets| && SeqAfter(p.seqNo, packets[i].seqNo)
        invariant i <= |packets|
        invariant forall j :: 0 <= j < i ==> SeqAfter(p.seqNo, packets[j].seqNo)
      {
        i := i + 1;
      }
      FirstPlace(packets, p.seqNo, i);
      if i < |packets| { reorders := reorders + 1; }
      packets := packets[..i] + [p] + packets[i..];
    }

    method Pop() returns (popped: Option<Packet>)
      modifies this
      ensures View() == JitterModel.Pop(old(View()))
      ensures popped == if Ready(old(View())) then Some(old(packets)[0]) else None
    {
      if |packets| == 0 { return None; }
      if !playing && |packets| < depth { return None; }
      playing := true;
      var p := packets[0];
      var gap := SeqDiff(p.seqNo, nextSeq);
      if gap > MAX_SEQUENCE_GAP { nextSeq := p.seqNo; }
      packets := packets[1..];
      nextSeq := Next16(p.seqNo);
      played := played + 1;
      return Some(p);
    }

    method Reset()
      modifies this
      ensures View() == JitterModel.Reset(old(View()))
    {
      packets := [];
      initialized := false;
      playing := false;
      received, dropped, played, reorders := 0, 0, 0, 0;
    }
  }

  lemma {:induction false} FirstPlace(packets: seq<Packet>, seqNo: Seq16, k: nat)
    requires k <= |packets|
    requires forall i :: 0 <= i < k ==> SeqAfter(seqNo, packets[i].seqNo)
    requires k < |packets| ==> !SeqAfter(seqNo, packets[k].seqNo)
    ensures Place(packets, seqNo) == k
  {
    if k > 0 {
      FirstPlace(packets[1..], seqNo, k - 1);
    }
  }
}
