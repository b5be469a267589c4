/** What whole runs of the media bridge write. */
module BridgeTheorems {
  import opened Basics
  import opened JitterModel
  import opened Ulaw
  import opened Resample
  import opened BridgeModel

  // ---------------------------------------------------------------- renumbering

  function Total(out: seq<Rtp>): nat {
    if out == [] then 0 else Total(out[..|out| - 1]) + |out[|out| - 1].payload|
  }

  function Mod16(n: int): Seq16 { n % 0x1_0000 }

  /** Decoded provider frames that found no writer: numbers used up, and a stretch of timestamps. */
  datatype Loss = Loss(frames: nat, time: nat)

  const NoLoss := Loss(0, 0)

  /**
    Packet i counts modulo 2^16 the packets and lost frames up to it; its timestamp counts
    their samples modulo 2^32.
   */
  ghost predicate StampedAt(out: seq<Rtp>, i: int, lost: Loss)
    requires 0 <= i < |out|
  {
    out[i].seqNo == Mod16(i + 1 + lost.frames) && out[i].timestamp == Mod32(Total(out[..i + 1]) + lost.time)
  }

  ghost predicate Stamped(out: seq<Rtp>) {
    forall i :: 0 <= i < |out| ==> StampedAt(out, i, NoLoss)
  }

  /** Each packet is stamped past what had been lost before it. */
  ghost predicate StampedPast(out: seq<Rtp>, lost: seq<Loss>) {
    |lost| == |out| && forall i :: 0 <= i < |out| ==> StampedAt(out, i, lost[i])
  }

  lemma CountOn(n: int)
    ensures Next16(Mod16(n)) == Mod16(n + 1)
  {
  }

  lemma SumOn(a: int, b: int)
    ensures Mod32(Mod32(a) + b) == Mod32(a + b)
  {
    var k := a / 0x1_0000_0000;
    assert Mod32(a) + b == a + b - 0x1_0000_0000 * k;
    ModShift(a + b, -k);
  }

  lemma ModShift(a: int, k: int)
    ensures (a + 0x1_0000_0000 * k) % 0x1_0000_0000 == a % 0x1_0000_0000
  {
  }

  lemma {:induction false} TotalAppend(out: seq<Rtp>, p: Rtp)
    ensures Total(out + [p]) == Total(out) + |p.payload|
  {
    assert (out + [p])[..|out|] == out;
  }

  /** A stream grows by a packet stamped from counters that agree with the stream and the loss. */
  lemma {:induction false} StampedGrows(out: seq<Rtp>, lost: seq<Loss>, p: Rtp, loss: Loss)
    requires StampedPast(out, lost)
    requires p.seqNo == Mod16(|out| + 1 + loss.frames) && p.timestamp == Mod32(Total(out) + |p.payload| + loss.time)
    ensures StampedPast(out + [p], lost + [loss])
  {
    var next := out + [p];
    TotalAppend(out, p);
    assert next[..|out| + 1] == next;
    forall i | 0 <= i < |out| ensures StampedAt(next, i, lost[i]) {
      assert StampedAt(out, i, lost[i]) && next[..i + 1] == out[..i + 1];
    }
  }

  function LossOf(e: Event): Loss { if e.ProviderPcm? && !e.writer then Loss(1, |e.data| / 2 / 2) else NoLoss }

  predicate Lossless(e: Event) { e.ProviderPcm? ==> e.writer }

  function Plus(a: Loss, b: Loss): Loss { Loss(a.frames + b.frames, a.time + b.time) }

  /** What a run has lost. */
  function Lost(events: seq<Event>): Loss {
    if events == [] then NoLoss else Plus(Lost(events[..|events| - 1]), LossOf(events[|events| - 1]))
  }

  function Extended(lost: seq<Loss>, loss: Loss, n: nat): seq<Loss> {
    if n <= |lost| then lost else lost + seq(n - |lost|, i => loss)
  }

  lemma ExtendedOnce(lost: seq<Loss>, loss: Loss, n: nat)
    requires |lost| <= n
    ensures Extended(lost, loss, n) + [loss] == Extended(lost, loss, n + 1)
  {
  }

  /** For each packet of the stream to the client, what the run had lost before the event that wrote it. */
  function LostBefore(depth: int, echoDelay: int, events: seq<Event>): seq<Loss> {
    if events == [] then []
    else
      var before := events[..|events| - 1];
      Extended(LostBefore(depth, echoDelay, before), Lost(before), |Run(Idle(depth, echoDelay), events).toClient|)
  }

  /** The client counters run ahead of the stream by exactly the loss, and each packet by the loss before it. */
  ghost predicate ClientAhead(s: State, loss: Loss, lost: seq<Loss>) {
    && s.webSeq == Mod16(|s.toClient| + loss.frames)
    && s.webTimestamp == Mod32(Total(s.toClient) + loss.time)
    && StampedPast(s.toClient, lost)
  }

  lemma EmitAhead(s: State, payload: seq<Byte>, loss: Loss, lost: seq<Loss>)
    requires ClientAhead(s, loss, lost)
    ensures ClientAhead(Emit(s, payload), loss, lost + [loss])
  {
    var p := Rtp(Next16(s.webSeq), Mod32(s.webTimestamp + |payload|), payload);
    CountOn(|s.toClient| + loss.frames);
    SumOn(Total(s.toClient) + loss.time, |payload|);
    TotalAppend(s.toClient, p);
    StampedGrows(s.toClient, lost, p, loss);
  }

  lemma FrameAhead(s: State, payload: seq<Byte>, writer: bool, loss: Loss, lost: seq<Loss>)
    requires ClientAhead(s, loss, lost)
    ensures var r := WriteFrame(s, payload, writer);
            |s.toClient| <= |r.toClient| && ClientAhead(r, loss, Extended(lost, loss, |r.toClient|))
  {
    if writer && payload != [] {
      EmitAhead(s, payload, loss, lost);
      ExtendedOnce(lost, loss, |lost|);
    }
  }

  lemma {:induction false} WriteAllAhead(s: State, queue: seq<EchoFrame>, writer: bool, loss: Loss, lost: seq<Loss>)
    requires ClientAhead(s, loss, lost)
    ensures var r := WriteAll(s, queue, writer);
            |s.toClient| <= |r.toClient| && ClientAhead(r, loss, Extended(lost, loss, |r.toClient|))
  {
    if queue != [] {
      var before := WriteAll(s, queue[..|queue| - 1], writer);
      var mid := Extended(lost, loss, |before.toClient|);
      WriteAllAhead(s, queue[..|queue| - 1], writer, loss, lost);
      FrameAhead(before, queue[|queue| - 1].payload, writer, loss, mid);
      ExtendedTwice(lost, loss, |before.toClient|, |WriteAll(s, queue, writer).toClient|);
    }
  }

  lemma ExtendedTwice(lost: seq<Loss>, loss: Loss, n: nat, m: nat)
    requires |lost| <= n <= m
    ensures Extended(Extended(lost, loss, n), loss, m) == Extended(lost, loss, m)
  {
  }

  lemma LossAhead(s: State, data: seq<Byte>, loss: Loss, lost: seq<Loss>)
    requires ClientAhead(s, loss, lost)
    ensures ClientAhead(PcmAudio(s, data, false), Plus(loss, Loss(1, |data| / 2 / 2)), lost)
  {
    CountOn(|s.toClient| + loss.frames);
    SumOn(Total(s.toClient) + loss.time, |data| / 2 / 2);
  }

  lemma PlayoutAhead(s: State, writer: bool, loss: Loss, lost: seq<Loss>)
    requires ClientAhead(s, loss, lost)
    ensures var r := Playout(s, writer); ClientAhead(r, loss, Extended(lost, loss, |r.toClient|))
  {
    if Ready(s.jitter) { FrameAhead(s.(jitter := Pop(s.jitter)), s.jitter.packets[0].payload, writer, loss, lost); }
  }

  lemma EchoAhead(s: State, now: int, writer: bool, loss: Loss, lost: seq<Loss>)
    requires ClientAhead(s, loss, lost)
    ensures var r := EchoPlayout(s, now, writer); ClientAhead(r, loss, Extended(lost, loss, |r.toClient|))
  {
    var n := DueCount(s.echo, now);
    WriteAllAhead(s.(echo := s.echo[n..]), s.echo[..n], writer, loss, lost);
  }

  lemma PcmAhead(s: State, data: seq<Byte>, writer: bool, loss: Loss, lost: seq<Loss>)
    requires ClientAhead(s, loss, lost)
    ensures var r := PcmAudio(s, data, writer);
            ClientAhead(r, Plus(loss, LossOf(ProviderPcm(data, writer))), Extended(lost, loss, |r.toClient|))
  {
    if writer {
      EmitAhead(s, PcmPayload(data), loss, lost);
      ExtendedOnce(lost, loss, |lost|);
    } else {
      LossAhead(s, data, loss, lost);
    }
  }

  lemma StepAhead(s: State, e: Event, loss: Loss, lost: seq<Loss>)
    requires ClientAhead(s, loss, lost)
    ensures var r := Step(s, e); ClientAhead(r, Plus(loss, LossOf(e)), Extended(lost, loss, |r.toClient|))
  {
    match e
    case ProviderRtp(p) =>
    case PlayoutTick(writer) => PlayoutAhead(s, writer, loss, lost);
    case ClientRtp(payload, now, writer) =>
    case EchoTick(now, writer) => EchoAhead(s, now, writer, loss, lost);
    case ProviderPcm(data, writer) => PcmAhead(s, data, writer, loss, lost);
  }

  /**
    In every run packet i to the client is numbered i + 1 plus the decoded frames that had
    found no writer before it, and its timestamp is the payload total plus their samples;
    the counters are ahead of the stream by what has been lost in all.
   */
  lemma {:induction false} ClientStream(depth: int, echoDelay: int, events: seq<Event>)
    ensures ClientAhead(Run(Idle(depth, echoDelay), events), Lost(events), LostBefore(depth, echoDelay, events))
  {
    if events != [] {
      var before, e := events[..|events| - 1], events[|events| - 1];
      var s := Run(Idle(depth, echoDelay), before);
      ClientStream(depth, echoDelay, before);
      assert Run(Idle(depth, echoDelay), events) == Step(s, e);
      StepAhead(s, e, Lost(before), LostBefore(depth, echoDelay, before));
    }
  }

  ghost predicate NoneLost(lost: seq<Loss>) { forall i :: 0 <= i < |lost| ==> lost[i] == NoLoss }

  lemma ExtendedNone(lost: seq<Loss>, n: nat)
    requires NoneLost(lost)
    ensures NoneLost(Extended(lost, NoLoss, n))
  {
  }

  lemma {:induction false} NothingLost(events: seq<Event>)
    requires forall i :: 0 <= i < |events| ==> Lossless(events[i])
    ensures Lost(events) == NoLoss
  {
    if events != [] {
      NothingLost(events[..|events| - 1]);
      assert Lossless(events[|events| - 1]);
    }
  }

  lemma {:induction false} NothingLostBefore(depth: int, echoDelay: int, events: seq<Event>)
    requires forall i :: 0 <= i < |events| ==> Lossless(events[i])
    ensures NoneLost(LostBefore(depth, echoDelay, events))
  {
    if events != [] {
      var before := events[..|events| - 1];
      NothingLostBefore(depth, echoDelay, before);
      NothingLost(before);
      ExtendedNone(LostBefore(depth, echoDelay, before), |Run(Idle(depth, echoDelay), events).toClient|);
    }
  }

  /** A stream before which nothing was lost is stamped by itself alone. */
  lemma StampedIfNoneLost(out: seq<Rtp>, lost: seq<Loss>)
    requires StampedPast(out, lost) && NoneLost(lost)
    ensures Stamped(out)
  {
    forall i | 0 <= i < |out| ensures StampedAt(out, i, NoLoss) {
      assert StampedAt(out, i, lost[i]);
    }
  }

  /** So is every stream of a run without losses. */
  lemma {:induction false} StampedWithoutLoss(depth: int, echoDelay: int, events: seq<Event>)
    requires forall i :: 0 <= i < |events| ==> Lossless(events[i])
    ensures Stamped(Run(Idle(depth, echoDelay), events).toClient)
  {
    ClientStream(depth, echoDelay, events);
    NothingLostBefore(depth, echoDelay, events);
    StampedIfNoneLost(Run(Idle(depth, echoDelay), events).toClient, LostBefore(depth, echoDelay, events));
  }

  ghost predicate ProviderStamped(s: State) {
    Stamped(s.toProvider) && s.sipSeq == Mod16(|s.toProvider|) && s.sipTimestamp == Mod32(Total(s.toProvider))
  }

  lemma ForwardStamped(s: State, payload: seq<Byte>)
    requires ProviderStamped(s)
    ensures ProviderStamped(Forward(s, payload))
  {
    var out, p := s.toProvider, Rtp(Next16(s.sipSeq), Mod32(s.sipTimestamp + |payload|), payload);
    CountOn(|out|);
    SumOn(Total(out), |payload|);
    TotalAppend(out, p);
    var none := seq(|out|, i => NoLoss);
    StampedGrows(out, none, p, NoLoss);
    forall i | 0 <= i < |out + [p]| ensures StampedAt(out + [p], i, NoLoss) {
      assert StampedAt(out + [p], i, (none + [NoLoss])[i]);
    }
  }

  /** The stream to the provider is stamped in every run. */
  lemma {:induction false} ProviderStream(depth: int, echoDelay: int, events: seq<Event>)
    ensures ProviderStamped(Run(Idle(depth, echoDelay), events))
  {
    if events != [] {
      var before, e := events[..|events| - 1], events[|events| - 1];
      ProviderStream(depth, echoDelay, before);
      var s := Run(Idle(depth, echoDelay), before);
      StepProvider(s, e);
      if e.ClientRtp? { ForwardStamped(s, e.payload); }
    }
  }

  lemma {:induction false} WriteAllKeeps(s: State, queue: seq<EchoFrame>, writer: bool)
    ensures var r := WriteAll(s, queue, writer);
            r == s.(webSeq := r.webSeq, webTimestamp := r.webTimestamp, toClient := r.toClient)
  {
    if queue != [] { WriteAllKeeps(s, queue[..|queue| - 1], writer); }
  }

  lemma StepProvider(s: State, e: Event)
    ensures var r := Step(s, e);
            if e.ClientRtp? && s.echoDelay <= 0 && e.writer && e.payload != [] then r == Forward(s, e.payload)
            else r.toProvider == s.toProvider && r.sipSeq == s.sipSeq && r.sipTimestamp == s.sipTimestamp
  {
    if e.EchoTick? {
      var n := DueCount(s.echo, e.now);
      WriteAllKeeps(s.(echo := s.echo[n..]), s.echo[..n], e.writer);
    }
  }

  // ---------------------------------------------------------------- provider to client, end to end

  /** A run in which the client is served from the jitter buffer alone. */
  predicate FromJitter(events: seq<Event>) {
    forall i :: 0 <= i < |events| ==> !events[i].EchoTick? && !events[i].ProviderPcm?
  }

  /** What such a run does to the jitter buffer. */
  function JitterOps(events: seq<Event>): (ops: seq<Op>)
    ensures forall i :: 0 <= i < |ops| ==> !ops[i].DoReset?
  {
    if events == [] then []
    else
      var before := JitterOps(events[..|events| - 1]);
      match events[|events| - 1]
      case ProviderRtp(p) => before + [DoPush(p)]
      case PlayoutTick(_) => before + [DoPop]
      case _ => before
  }

  lemma {:induction false} JitterOfRun(depth: int, echoDelay: int, events: seq<Event>)
    ensures Run(Idle(depth, echoDelay), events).jitter == RunState(New(depth), JitterOps(events))
  {
    if events != [] {
      var before, e := events[..|events| - 1], events[|events| - 1];
      JitterOfRun(depth, echoDelay, before);
      var s, ops := Run(Idle(depth, echoDelay), before), JitterOps(before);
      match e
      case ProviderRtp(p) => RunOneMore(New(depth), ops, DoPush(p));
      case PlayoutTick(_) => RunOneMore(New(depth), ops, DoPop);
      case EchoTick(now, writer) =>
        var n := DueCount(s.echo, now);
        WriteAllKeeps(s.(echo := s.echo[n..]), s.echo[..n], writer);
      case _ =>
    }
  }

  lemma {:induction false} RunOneMore(b: Buffer, ops: seq<Op>, op: Op)
    ensures RunState(b, ops + [op]) == StepBuffer(RunState(b, ops), op)
    ensures Played(b, ops + [op]) == Played(b, ops) + Output(RunState(b, ops), op)
  {
    assert (ops + [op])[..|ops|] == ops;
  }

  /** The packets whose payloads were written: those played with a writer present and something to say. */
  function Written(depth: int, events: seq<Event>): seq<Packet> {
    if events == [] then []
    else
      var before, e := events[..|events| - 1], events[|events| - 1];
      var b := RunState(New(depth), JitterOps(before));
      Written(depth, before) +
      (if e.PlayoutTick? && Ready(b) && e.writer && b.packets[0].payload != [] then [b.packets[0]] else [])
  }

  ghost predicate SamePayloads(out: seq<Rtp>, packets: seq<Packet>) {
    |out| == |packets| && forall i :: 0 <= i < |out| ==> out[i].payload == packets[i].payload
  }

  lemma PlayoutWrites(s: State, writer: bool, written: seq<Packet>)
    requires SamePayloads(s.toClient, written)
    ensures SamePayloads(Playout(s, writer).toClient,
              written + if Ready(s.jitter) && writer && s.jitter.packets[0].payload != []
                        then [s.jitter.packets[0]] else [])
  {
  }

  lemma {:induction false} WrittenPayloads(depth: int, echoDelay: int, events: seq<Event>)
    requires FromJitter(events)
    ensures SamePayloads(Run(Idle(depth, echoDelay), events).toClient, Written(depth, events))
  {
    if events != [] {
      var before, e := events[..|events| - 1], events[|events| - 1];
      WrittenPayloads(depth, echoDelay, before);
      JitterOfRun(depth, echoDelay, before);
      if e.PlayoutTick? { PlayoutWrites(Run(Idle(depth, echoDelay), before), e.writer, Written(depth, before)); }
    }
  }

  /** What is written is a selection, in order, of what the buffer plays. */
  lemma {:induction false} WrittenInOrder(depth: int, events: seq<Event>)
    requires InSourceOrder(Played(New(depth), JitterOps(events)))
    ensures InSourceOrder(Written(depth, events))
    ensures forall p <- Written(depth, events) :: p in Played(New(depth), JitterOps(events))
  {
    if events != [] {
      var before, e := events[..|events| - 1], events[|events| - 1];
      var ops := JitterOps(before);
      var out := Played(New(depth), ops);
      if e.ProviderRtp? { RunOneMore(New(depth), ops, DoPush(e.packet)); }
      if e.PlayoutTick? { RunOneMore(New(depth), ops, DoPop); }
      var now := Played(New(depth), JitterOps(events));
      assert out <= now;
      assert forall i :: 0 <= i < |out| ==> now[i] == out[i];
      WrittenInOrder(depth, before);
      var w := Written(depth, before);
      if Written(depth, events) != w { LastIsLatest(w, out, now); }
    }
  }

  lemma LastIsLatest(w: seq<Packet>, out: seq<Packet>, now: seq<Packet>)
    requires InSourceOrder(w) && InSourceOrder(now) && |now| == |out| + 1 && out == now[..|out|]
    requires forall p <- w :: p in out
    ensures InSourceOrder(w + [now[|out|]])
  {
    var last := now[|out|];
    forall i | 0 <= i < |w| ensures Origin(w[i]) < Origin(last) {
      assert w[i] in out;
      var j :| 0 <= j < |out| && out[j] == w[i];
      assert now[j] == w[i];
    }
  }

  /**
    Provider to client, end to end: with a network that keeps packets within half the
    number circle, the client receives a selection of the provider's payloads in strictly
    increasing source order, each packet at most once, freshly stamped.
   */
  lemma {:induction false} ProviderToClient(depth: int, echoDelay: int, events: seq<Event>, base: int)
    requires FromJitter(events) && Timely(New(depth), JitterOps(events), base)
    ensures var out, sent := Run(Idle(depth, echoDelay), events).toClient, Written(depth, events);
            && SamePayloads(out, sent)
            && (forall i, j :: 0 <= i < j < |sent| ==> Origin(sent[i]) < Origin(sent[j]))
            && (forall p <- sent :: Pushed(JitterOps(events), p))
            && Stamped(out)
  {
    var ops := JitterOps(events);
    WrittenPayloads(depth, echoDelay, events);
    PlayedInSourceOrder(New(depth), ops, base);
    WrittenInOrder(depth, events);
    StampedWithoutLoss(depth, echoDelay, events);
  }

  // ---------------------------------------------------------------- echo

  /**
    A run in echo mode: client packets, ticks of both playout loops, no provider audio;
    the writer is set whenever the echo loop ticks and the clock does not go back.
   */
  predicate EchoRun(events: seq<Event>) {
    && (forall i :: 0 <= i < |events| ==> EchoEvent(events[i]))
    && (forall i, j :: 0 <= i < j < |events| && Timed(events[i]) && Timed(events[j]) ==> events[i].now <= events[j].now)
  }

  predicate EchoEvent(e: Event) { e.PlayoutTick? || e.ClientRtp? || (e.EchoTick? && e.writer) }

  predicate Timed(e: Event) { e.ClientRtp? || e.EchoTick? }

  /** Every non-empty frame the client sent, with the time it is due. */
  function Enqueued(echoDelay: int, events: seq<Event>): seq<EchoFrame> {
    if events == [] then []
    else
      var before, e := Enqueued(echoDelay, events[..|events| - 1]), events[|events| - 1];
      if e.ClientRtp? && e.payload != [] then before + [EchoFrame(e.payload, e.now + echoDelay)] else before
  }

  /** Frames written so far and frames queued are the enqueued ones, split at one point. */
  ghost predicate SplitAt(s: State, frames: seq<EchoFrame>) {
    && |frames| == |s.toClient| + |s.echo|
    && (forall i :: 0 <= i < |s.toClient| ==> s.toClient[i].payload == frames[i].payload)
    && s.echo == frames[|s.toClient|..]
  }

  ghost predicate EchoFrames(frames: seq<EchoFrame>) {
    && (forall i :: 0 <= i < |frames| ==> frames[i].payload != [])
    && (forall i, j :: 0 <= i < j < |frames| ==> frames[i].playAt <= frames[j].playAt)
  }

  /** The stream has grown by the frames, in order. */
  ghost predicate Appends(out: seq<Rtp>, grown: seq<Rtp>, frames: seq<EchoFrame>) {
    && |grown| == |out| + |frames| && out <= grown
    && forall i :: 0 <= i < |frames| ==> grown[|out| + i].payload == frames[i].payload
  }

  lemma {:induction false} WriteAllWrites(s: State, queue: seq<EchoFrame>)
    requires forall i :: 0 <= i < |queue| ==> queue[i].payload != []
    ensures Appends(s.toClient, WriteAll(s, queue, true).toClient, queue)
  {
    if queue != [] { WriteAllWrites(s, queue[..|queue| - 1]); }
  }

  lemma SplitMoves(s: State, r: State, frames: seq<EchoFrame>, n: nat)
    requires SplitAt(s, frames) && n <= |s.echo| && r.echo == s.echo[n..]
    requires Appends(s.toClient, r.toClient, s.echo[..n])
    ensures SplitAt(r, frames)
  {
    forall i | 0 <= i < |r.toClient| ensures r.toClient[i].payload == frames[i].payload {
      if i >= |s.toClient| {
        assert r.toClient[|s.toClient| + (i - |s.toClient|)].payload == s.echo[i - |s.toClient|].payload;
      }
    }
  }

  /** The frames due are a prefix of a queue sorted by due time. */
  lemma {:induction false} DueExactly(queue: seq<EchoFrame>, now: int)
    requires forall i, j :: 0 <= i < j < |queue| ==> queue[i].playAt <= queue[j].playAt
    ensures forall i :: 0 <= i < |queue| ==> (i < DueCount(queue, now) <==> queue[i].playAt <= now)
  {
    var n := DueCount(queue, now);
    assert forall i :: n < i < |queue| ==> queue[n].playAt <= queue[i].playAt;
  }

  lemma {:induction false} EchoPlayoutWrites(s: State, now: int)
    requires forall i :: 0 <= i < |s.echo| ==> s.echo[i].payload != []
    ensures var r, n := EchoPlayout(s, now, true), DueCount(s.echo, now);
            && r.echo == s.echo[n..] && r.echoDelay == s.echoDelay && r.jitter == s.jitter
            && Appends(s.toClient, r.toClient, s.echo[..n])
  {
    var n := DueCount(s.echo, now);
    var popped, due := s.(echo := s.echo[n..]), s.echo[..n];
    WriteAllWrites(popped, due);
    WriteAllKeeps(popped, due, true);
  }

  lemma QueueIsTail(s: State, frames: seq<EchoFrame>)
    requires SplitAt(s, frames) && EchoFrames(frames)
    ensures forall i :: 0 <= i < |s.echo| ==> s.echo[i] == frames[|s.toClient| + i] && s.echo[i].payload != []
    ensures forall i, j :: 0 <= i < j < |s.echo| ==> s.echo[i].playAt <= s.echo[j].playAt
  {
  }

  lemma TickSplits(s: State, r: State, frames: seq<EchoFrame>, now: int)
    requires SplitAt(s, frames) && EchoFrames(frames) && r == EchoPlayout(s, now, true)
    ensures SplitAt(r, frames) && r.echoDelay == s.echoDelay && r.jitter == s.jitter
  {
    QueueIsTail(s, frames);
    EchoPlayoutWrites(s, now);
    SplitMoves(s, r, frames, DueCount(s.echo, now));
  }

  lemma TickTimes(s: State, r: State, frames: seq<EchoFrame>, now: int)
    requires SplitAt(s, frames) && EchoFrames(frames) && r == EchoPlayout(s, now, true)
    ensures |s.toClient| <= |r.toClient| <= |frames|
    ensures forall i :: |s.toClient| <= i < |frames| ==> (i < |r.toClient| <==> frames[i].playAt <= now)
  {
    QueueIsTail(s, frames);
    EchoPlayoutWrites(s, now);
    DueExactly(s.echo, now);
    forall i | |s.toClient| <= i < |frames| ensures i < |r.toClient| <==> frames[i].playAt <= now {
      assert s.echo[i - |s.toClient|] == frames[i];
    }
  }

  lemma EnqueueSplits(s: State, r: State, frames: seq<EchoFrame>, payload: seq<Byte>, now: int, writer: bool)
    requires SplitAt(s, frames) && s.echoDelay > 0 && r == ClientAudio(s, payload, now, writer)
    ensures SplitAt(r, if payload != [] then frames + [EchoFrame(payload, now + s.echoDelay)] else frames)
    ensures r.echoDelay == s.echoDelay && r.jitter == s.jitter
  {
  }

  lemma EchoRunPrefix(events: seq<Event>)
    requires events != [] && EchoRun(events)
    ensures EchoRun(events[..|events| - 1])
  {
  }

  lemma {:induction false} EnqueuedBy(echoDelay: int, events: seq<Event>, now: int)
    requires forall i :: 0 <= i < |events| && Timed(events[i]) ==> events[i].now <= now
    ensures forall i :: 0 <= i < |Enqueued(echoDelay, events)| ==>
            Enqueued(echoDelay, events)[i].playAt <= now + echoDelay
  {
    if events != [] { EnqueuedBy(echoDelay, events[..|events| - 1], now); }
  }

  lemma {:induction false} EnqueuedSorted(echoDelay: int, events: seq<Event>)
    requires EchoRun(events)
    ensures EchoFrames(Enqueued(echoDelay, events))
  {
    if events != [] {
      var before, e := events[..|events| - 1], events[|events| - 1];
      EchoRunPrefix(events);
      EnqueuedSorted(echoDelay, before);
      if e.ClientRtp? { EnqueuedBy(echoDelay, before, e.now); }
    }
  }

  /** The state of an echo run: nothing from the provider, and the frames split between stream and queue. */
  ghost predicate Echoing(s: State, echoDelay: int, frames: seq<EchoFrame>) {
    SplitAt(s, frames) && s.echoDelay == echoDelay && s.jitter.packets == []
  }

  lemma EchoStep(s: State, e: Event, echoDelay: int, frames: seq<EchoFrame>)
    requires echoDelay > 0 && EchoEvent(e) && Echoing(s, echoDelay, frames) && EchoFrames(frames)
    ensures Echoing(Step(s, e), echoDelay,
                    if e.ClientRtp? && e.payload != [] then frames + [EchoFrame(e.payload, e.now + echoDelay)]
                    else frames)
  {
    if e.EchoTick? {
      TickSplits(s, Step(s, e), frames, e.now);
    } else if e.ClientRtp? {
      EnqueueSplits(s, Step(s, e), frames, e.payload, e.now, e.writer);
    }
  }

  /**
    Echo: after any run the frames written, followed by the frames queued, are the
    non-empty frames enqueued, in order.
   */
  lemma {:induction false} EchoConserves(depth: int, echoDelay: int, events: seq<Event>)
    requires echoDelay > 0 && EchoRun(events)
    ensures Echoing(Run(Idle(depth, echoDelay), events), echoDelay, Enqueued(echoDelay, events))
  {
    if events != [] {
      var before, e := events[..|events| - 1], events[|events| - 1];
      EchoRunPrefix(events);
      EchoConserves(depth, echoDelay, before);
      EnqueuedSorted(echoDelay, before);
      EchoStep(Run(Idle(depth, echoDelay), before), e, echoDelay, Enqueued(echoDelay, before));
    }
  }

  /** A tick writes exactly the frames whose delay has passed: none earlier, and none that is due stays queued. */
  lemma {:induction false} EchoDelay(depth: int, echoDelay: int, events: seq<Event>, now: int)
    requires echoDelay > 0 && EchoRun(events + [EchoTick(now, true)])
    ensures var s, frames := Run(Idle(depth, echoDelay), events), Enqueued(echoDelay, events);
            var r := Run(Idle(depth, echoDelay), events + [EchoTick(now, true)]);
            && |s.toClient| <= |r.toClient| <= |frames|
            && forall i :: |s.toClient| <= i < |frames| ==> (i < |r.toClient| <==> frames[i].playAt <= now)
  {
    var all := events + [EchoTick(now, true)];
    assert all[..|all| - 1] == events;
    EchoRunPrefix(all);
    EchoConserves(depth, echoDelay, events);
    EnqueuedSorted(echoDelay, events);
    TickTimes(Run(Idle(depth, echoDelay), events), Run(Idle(depth, echoDelay), all), Enqueued(echoDelay, events), now);
  }

  // ---------------------------------------------------------------- through a PCM provider and back

  /**
    A PCM provider that plays back what it is sent: the client gets as many bytes as it
    sent, and decodes each within a quarter of the step to the next sample, plus one, plus
    half a quantisation step of what it had sent.
   */
  lemma PcmLoop(payload: seq<Byte>, i: nat)
    requires i < |payload|
    ensures var back, x := PcmPayload(ClientPcm(payload)), DecodeAll(payload);
            && |back| == |payload|
            && back[i] == Encode(Through16(x)[i])
            && 4 * Gap(Decode(back[i]), x[i]) <= StepAfter(x, i) + 4 + 4 * Pow2(Exponent(back[i]) + 2)
  {
    var x := DecodeAll(payload);
    LoopIsThrough16(payload);
    Through16kHz(x, i);
    DecodedInRange(payload);
    ThroughInRange(x, i);
    CodedNear(Through16(x)[i], x[i]);
  }

  lemma LoopIsThrough16(payload: seq<Byte>)
    ensures PcmPayload(ClientPcm(payload)) == EncodeAll(Through16(DecodeAll(payload)))
  {
    SamplesSurvive(Upsampled8to16(DecodeAll(payload)));
  }

  lemma CodedNear(y: Sample, x: Sample)
    requires -CLIP <= y <= CLIP
    ensures Gap(Decode(Encode(y)), x) <= Gap(y, x) + Pow2(Exponent(Encode(y)) + 2)
  {
    HalfStepExactly(y);
  }

  /** Decoded samples are far from the limits. */
  lemma DecodedInRange(payload: seq<Byte>)
    ensures forall k :: 0 <= k < |payload| ==> -CLIP <= DecodeAll(payload)[k] <= CLIP
  {
    forall k | 0 <= k < |payload| ensures -CLIP <= Decode(payload[k]) <= CLIP {
      ByteInRange(payload[k]);
    }
  }

  lemma ByteInRange(u: Byte)
    ensures -CLIP <= Decode(u) <= CLIP
  {
    var c := (255 - u) / 16;
    assert 255 - u == 16 * c + (255 - u) % 16 && 0 <= c < 16;
    MiddleEncodesBack(Exponent(u), (255 - u) % 16);
    SameSegment(Exponent(u), 0, (255 - u) % 16);
  }

  /** And so are the means of two of them. */
  lemma ThroughInRange(x: seq<Sample>, i: nat)
    requires i < |x| && forall k :: 0 <= k < |x| ==> -CLIP <= x[k] <= CLIP
    ensures -CLIP <= Through16(x)[i] <= CLIP
  {
    var up := Upsampled8to16(x);
    Upsampled16Among(x, 2 * i);
    Upsampled16Among(x, 2 * i + 1);
    Downsampled16Among(up, i);
  }
}
