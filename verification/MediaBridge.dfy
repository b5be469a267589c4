/** The media bridge as it runs: handlers that move its counters, queue and streams in place. */
module MediaBridge {
  import opened Basics
  import opened JitterModel
  import opened Jitter
  import opened Ulaw
  import opened Resample
  import ResampleLoops
  import opened BridgeModel

  class Bridge {
    const jitterBuf: JitterBuffer
    const echoDelay: int
    var sipSeqNum: Seq16
    var sipTimestamp: int
    var webrtcSeqNum: Seq16
    var webrtcTimestamp: int
    var echoQueue: seq<EchoFrame>

    // What was passed to the writers of the two legs.
    var toProvider: seq<Rtp>
    var toClient: seq<Rtp>

    function View(): State
      reads this, jitterBuf
    {
      State(jitterBuf.View(), echoDelay, sipSeqNum, sipTimestamp, webrtcSeqNum, webrtcTimestamp,
            echoQueue, toProvider, toClient)
    }

    constructor (depth: int, echoDelay: int)
      ensures View() == Idle(depth, echoDelay)
      ensures fresh(jitterBuf)
    {
      jitterBuf := new JitterBuffer(depth);
      this.echoDelay := echoDelay;
      sipSeqNum, sipTimestamp, webrtcSeqNum, webrtcTimestamp := 0, 0, 0, 0;
      echoQueue, toProvider, toClient := [], [], [];
    }

    method HandleProviderRTP(packet: Packet)
      modifies jitterBuf
      ensures View() == Step(old(View()), ProviderRtp(packet))
    {
      jitterBuf.Push(packet);
    }

    method PlayoutFrame(writer: bool)
      modifies this, jitterBuf
      ensures View() == Step(old(View()), PlayoutTick(writer))
    {
      var popped := jitterBuf.Pop();
      if popped.None? { return; }
      if !writer { return; }
      if |popped.value.payload| == 0 { return; }
      WriteToClient(popped.value.payload);
    }

    /** The stamping and writing that every frame to the client goes through. */
    method WriteToClient(payload: seq<Byte>)
      modifies this`webrtcSeqNum, this`webrtcTimestamp, this`toClient
      ensures View() == Emit(old(View()), payload)
    {
      webrtcSeqNum := Next16(webrtcSeqNum);
      webrtcTimestamp := Mod32(webrtcTimestamp + |payload|);
      toClient := toClient + [Rtp(webrtcSeqNum, webrtcTimestamp, payload)];
    }

    method HandleClientRTP(payload: seq<Byte>, now: int, writer: bool)
      modifies this
      ensures View() == Step(old(View()), ClientRtp(payload, now, writer))
    {
      if echoDelay > 0 {
        EnqueueEcho(payload, now);
        return;
      }
      if !writer { return; }
      if |payload| == 0 { return; }
      sipSeqNum := Next16(sipSeqNum);
      sipTimestamp := Mod32(sipTimestamp + |payload|);
      toProvider := toProvider + [Rtp(sipSeqNum, sipTimestamp, payload)];
    }

    method EnqueueEcho(payload: seq<Byte>, now: int)
      modifies this`echoQueue
      ensures echoQueue == if payload == [] then old(echoQueue)
                           else old(echoQueue) + [EchoFrame(payload, now + echoDelay)]
    {
      if |payload| == 0 { return; }
      echoQueue := echoQueue + [EchoFrame(payload, now + echoDelay)];
    }

    /** Takes the frames that are due off the queue. */
    method CollectDue(now: int) returns (due: seq<EchoFrame>)
      modifies this`echoQueue
      ensures due == old(echoQueue)[..DueCount(old(echoQueue), now)]
      ensures echoQueue == old(echoQueue)[DueCount(old(echoQueue), now)..]
    {
      due := [];
      var i := 0;
      while i < |echoQueue| && echoQueue[i].playAt <= now
        invariant i <= |echoQueue| && due == echoQueue[..i]
        invariant forall j :: 0 <= j < i ==> echoQueue[j].playAt <= now
      {
        due := due + [echoQueue[i]];
        i := i + 1;
      }
      FirstNotDue(echoQueue, now, i);
      if i > 0 { echoQueue := echoQueue[i..]; }
    }

    method OnEchoTick(now: int, writer: bool)
      modifies this
      ensures View() == Step(old(View()), EchoTick(now, writer))
    {
      var due := CollectDue(now);
      ghost var taken := View();
      for k := 0 to |due|
        invariant View() == WriteAll(taken, due[..k], writer)
      {
        assert due[..k + 1][..k] == due[..k];
        WriteEchoFrame(due[k].payload, writer);
      }
      assert due[..|due|] == due;
    }

    method WriteEchoFrame(payload: seq<Byte>, writer: bool)
      modifies this`webrtcSeqNum, this`webrtcTimestamp, this`toClient
      ensures View() == WriteFrame(old(View()), payload, writer)
    {
      if !writer || |payload| == 0 { return; }
      WriteToClient(payload);
    }

    /** Decodes, halves the rate, encodes; the counters move before the writer is looked at. */
    method HandleProviderPCM16k(data: seq<Byte>, writer: bool)
      modifies this`webrtcSeqNum, this`webrtcTimestamp, this`toClient
      ensures View() == Step(old(View()), ProviderPcm(data, writer))
    {
      var samples16k := ResampleLoops.BytesToPcm16(data);
      var samples8k := ResampleLoops.Downsample16to8(samples16k[..]);
      var encoded := EncodeUlaw(samples8k[..]);
      var payload := encoded[..];
      webrtcSeqNum := Next16(webrtcSeqNum);
      webrtcTimestamp := Mod32(webrtcTimestamp + samples8k.Length);
      if !writer { return; }
      toClient := toClient + [Rtp(webrtcSeqNum, webrtcTimestamp, payload)];
    }
  }

  lemma {:induction false} FirstNotDue(queue: seq<EchoFrame>, now: int, i: nat)
    requires i <= |queue|
    requires forall j :: 0 <= j < i ==> queue[j].playAt <= now
    requires i < |queue| ==> queue[i].playAt > now
    ensures DueCount(queue, now) == i
  {
    if i > 0 {
      FirstNotDue(queue[1..], now, i - 1);
    }
  }
}
