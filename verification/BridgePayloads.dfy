/** Exactly what the media bridge writes to each leg in a run, in order: nothing is dropped but what is named here. */
module BridgePayloads {
  import opened Basics
  import opened JitterModel
  import opened BridgeModel
  import opened BridgeTheorems

  function Payloads(out: seq<Rtp>): (r: seq<seq<Byte>>)
    ensures |r| == |out| && forall i :: 0 <= i < |out| ==> r[i] == out[i].payload
  {
    if out == [] then [] else Payloads(out[..|out| - 1]) + [out[|out| - 1].payload]
  }

  lemma {:induction false} PayloadsAppend(out: seq<Rtp>, more: seq<Rtp>)
    ensures Payloads(out + more) == Payloads(out) + Payloads(more)
  {
  }

  // ---------------------------------------------------------------- client to provider

  /** What the client said while a provider was connected. */
  function Spoken(events: seq<Event>): seq<seq<Byte>> {
    if events == [] then []
    else
      var e := events[|events| - 1];
      Spoken(events[..|events| - 1]) + if e.ClientRtp? && e.writer && e.payload != [] then [e.payload] else []
  }

  lemma {:induction false} DelayStays(depth: int, echoDelay: int, events: seq<Event>)
    ensures Run(Idle(depth, echoDelay), events).echoDelay == echoDelay
  {
    if events != [] {
      var before, e := events[..|events| - 1], events[|events| - 1];
      DelayStays(depth, echoDelay, before);
      var s := Run(Idle(depth, echoDelay), before);
      if e.EchoTick? {
        WriteAllKeeps(s.(echo := s.echo[DueCount(s.echo, e.now)..]), s.echo[..DueCount(s.echo, e.now)], e.writer);
      }
    }
  }

  /** The provider hears exactly the non-empty client packets that found a writer, in order; in echo mode nothing. */
  lemma {:induction false} ProviderHearsExactly(depth: int, echoDelay: int, events: seq<Event>)
    ensures Payloads(Run(Idle(depth, echoDelay), events).toProvider) == if echoDelay > 0 then [] else Spoken(events)
  {
    if events != [] {
      var before, e := events[..|events| - 1], events[|events| - 1];
      ProviderHearsExactly(depth, echoDelay, before);
      DelayStays(depth, echoDelay, before);
      StepProvider(Run(Idle(depth, echoDelay), before), e);
      var s, r := Run(Idle(depth, echoDelay), before), Run(Idle(depth, echoDelay), events);
      if echoDelay <= 0 && e.ClientRtp? && e.writer && e.payload != [] {
        assert r.toProvider == s.toProvider + [r.toProvider[|s.toProvider|]];
        PayloadsAppend(s.toProvider, [r.toProvider[|s.toProvider|]]);
      }
    }
  }

  // ---------------------------------------------------------------- to the client

  /** The packets a tick of the playout loop takes from the jitter buffer. */
  function NewlyPlayed(depth: int, events: seq<Event>): seq<Packet>
    requires events != []
  {
    var now, before := Played(New(depth), JitterOps(events)), Played(New(depth), JitterOps(events[..|events| - 1]));
    if |before| <= |now| then now[|before|..] else []
  }

  function Speaking(packets: seq<Packet>): seq<seq<Byte>> {
    if packets == [] then []
    else
      var p := packets[|packets| - 1];
      Speaking(packets[..|packets| - 1]) + if p.payload != [] then [p.payload] else []
  }

  function FramePayloads(frames: seq<EchoFrame>): (r: seq<seq<Byte>>)
    ensures |r| == |frames| && forall i :: 0 <= i < |frames| ==> r[i] == frames[i].payload
  {
    if frames == [] then [] else [frames[0].payload] + FramePayloads(frames[1..])
  }

  /** The echo frames still waiting after a run: a tick takes those at the head that are due. */
  function Waiting(echoDelay: int, events: seq<Event>): seq<EchoFrame> {
    if events == [] then []
    else
      var queue := Waiting(echoDelay, events[..|events| - 1]);
      match events[|events| - 1]
      case ClientRtp(payload, now, _) =>
        if echoDelay > 0 && payload != [] then queue + [EchoFrame(payload, now + echoDelay)] else queue
      case EchoTick(now, _) => queue[DueCount(queue, now)..]
      case _ => queue
  }

  /** What one event lets the client hear, given the run that ends with it. */
  function HeardNow(depth: int, echoDelay: int, events: seq<Event>): seq<seq<Byte>>
    requires events != []
  {
    match events[|events| - 1]
    case PlayoutTick(writer) => if writer then Speaking(NewlyPlayed(depth, events)) else []
    case EchoTick(now, writer) =>
      var queue := Waiting(echoDelay, events[..|events| - 1]);
      if writer then FramePayloads(queue[..DueCount(queue, now)]) else []
    case ProviderPcm(data, writer) => if writer then [PcmPayload(data)] else []
    case _ => []
  }

  function Heard(depth: int, echoDelay: int, events: seq<Event>): seq<seq<Byte>> {
    if events == [] then []
    else Heard(depth, echoDelay, events[..|events| - 1]) + HeardNow(depth, echoDelay, events)
  }

  lemma {:induction false} SpeechWaits(echoDelay: int, events: seq<Event>)
    ensures forall i :: 0 <= i < |Waiting(echoDelay, events)| ==> Waiting(echoDelay, events)[i].payload != []
  {
    if events != [] { SpeechWaits(echoDelay, events[..|events| - 1]); }
  }

  lemma {:induction false} EchoTickTakes(s: State, now: int, writer: bool)
    ensures EchoPlayout(s, now, writer).echo == s.echo[DueCount(s.echo, now)..]
  {
    WriteAllKeeps(s.(echo := s.echo[DueCount(s.echo, now)..]), s.echo[..DueCount(s.echo, now)], writer);
  }

  lemma {:induction false} QueueIsWaiting(depth: int, echoDelay: int, events: seq<Event>)
    ensures Run(Idle(depth, echoDelay), events).echo == Waiting(echoDelay, events)
  {
    if events != [] {
      var before := events[..|events| - 1];
      QueueIsWaiting(depth, echoDelay, before);
      DelayStays(depth, echoDelay, before);
      match events[|events| - 1]
      case EchoTick(now, writer) => EchoTickTakes(Run(Idle(depth, echoDelay), before), now, writer);
      case _ =>
    }
  }

  lemma {:induction false} NobodyHears(s: State, frames: seq<EchoFrame>)
    ensures WriteAll(s, frames, false) == s
  {
    if frames != [] { NobodyHears(s, frames[..|frames| - 1]); }
  }

  lemma {:induction false} AppendedPayloads(out: seq<Rtp>, grown: seq<Rtp>, frames: seq<EchoFrame>)
    requires Appends(out, grown, frames)
    ensures Payloads(grown) == Payloads(out) + FramePayloads(frames)
  {
    forall i | 0 <= i < |grown|
      ensures Payloads(grown)[i] == (Payloads(out) + FramePayloads(frames))[i]
    {
      if i >= |out| { assert grown[|out| + (i - |out|)].payload == frames[i - |out|].payload; }
    }
  }

  lemma {:induction false} EchoTickHeard(s: State, now: int, writer: bool)
    requires forall i :: 0 <= i < |s.echo| ==> s.echo[i].payload != []
    ensures Payloads(EchoPlayout(s, now, writer).toClient) ==
            Payloads(s.toClient) + if writer then FramePayloads(s.echo[..DueCount(s.echo, now)]) else []
  {
    var n := DueCount(s.echo, now);
    if writer {
      EchoPlayoutWrites(s, now);
      AppendedPayloads(s.toClient, EchoPlayout(s, now, true).toClient, s.echo[..n]);
    } else {
      NobodyHears(s.(echo := s.echo[n..]), s.echo[..n]);
    }
  }

  lemma EmittedPayload(s: State, payload: seq<Byte>)
    ensures Payloads(Emit(s, payload).toClient) == Payloads(s.toClient) + [payload]
  {
    var grown := Emit(s, payload).toClient;
    assert grown == s.toClient + [grown[|s.toClient|]];
    PayloadsAppend(s.toClient, [grown[|s.toClient|]]);
  }

  lemma {:induction false} TickPlays(depth: int, events: seq<Event>)
    requires events != [] && events[|events| - 1].PlayoutTick?
    ensures NewlyPlayed(depth, events) ==
            var b := RunState(New(depth), JitterOps(events[..|events| - 1]));
            if Ready(b) then [b.packets[0]] else []
  {
    RunOneMore(New(depth), JitterOps(events[..|events| - 1]), DoPop);
  }

  lemma PlayoutHeard(s: State, writer: bool)
    ensures Payloads(Playout(s, writer).toClient) ==
            Payloads(s.toClient) +
            if writer then Speaking(if Ready(s.jitter) then [s.jitter.packets[0]] else []) else []
  {
    if Ready(s.jitter) {
      var p := s.jitter.packets[0];
      assert Speaking([p]) == if p.payload != [] then [p.payload] else [];
      if writer && p.payload != [] { EmittedPayload(s.(jitter := Pop(s.jitter)), p.payload); }
    }
  }

  /** The client hears what the last event lets it hear, and heard the rest before. */
  ghost predicate HearsMore(depth: int, echoDelay: int, events: seq<Event>)
    requires events != []
  {
    Payloads(Run(Idle(depth, echoDelay), events).toClient) ==
    Payloads(Run(Idle(depth, echoDelay), events[..|events| - 1]).toClient) + HeardNow(depth, echoDelay, events)
  }

  lemma {:induction false} PlayoutHearsMore(depth: int, echoDelay: int, events: seq<Event>)
    requires events != [] && events[|events| - 1].PlayoutTick?
    ensures HearsMore(depth, echoDelay, events)
  {
    var before := events[..|events| - 1];
    JitterOfRun(depth, echoDelay, before);
    TickPlays(depth, events);
    PlayoutHeard(Run(Idle(depth, echoDelay), before), events[|events| - 1].writer);
  }

  lemma {:induction false} EchoHearsMore(depth: int, echoDelay: int, events: seq<Event>)
    requires events != [] && events[|events| - 1].EchoTick?
    ensures HearsMore(depth, echoDelay, events)
  {
    var before, e := events[..|events| - 1], events[|events| - 1];
    QueueIsWaiting(depth, echoDelay, before);
    SpeechWaits(echoDelay, before);
    EchoTickHeard(Run(Idle(depth, echoDelay), before), e.now, e.writer);
  }

  lemma {:induction false} PcmHearsMore(depth: int, echoDelay: int, events: seq<Event>)
    requires events != [] && events[|events| - 1].ProviderPcm?
    ensures HearsMore(depth, echoDelay, events)
  {
    var e := events[|events| - 1];
    if e.writer { EmittedPayload(Run(Idle(depth, echoDelay), events[..|events| - 1]), PcmPayload(e.data)); }
  }

  /**
    In every run the client hears exactly, in order: what the jitter buffer plays while the
    client is connected, the echo frames due at each tick, and the decoded provider audio.
   */
  lemma {:induction false} ClientHearsExactly(depth: int, echoDelay: int, events: seq<Event>)
    ensures Payloads(Run(Idle(depth, echoDelay), events).toClient) == Heard(depth, echoDelay, events)
  {
    if events != [] {
      ClientHearsExactly(depth, echoDelay, events[..|events| - 1]);
      match events[|events| - 1]
      case PlayoutTick(_) => PlayoutHearsMore(depth, echoDelay, events);
      case EchoTick(_, _) => EchoHearsMore(depth, echoDelay, events);
      case ProviderPcm(_, _) => PcmHearsMore(depth, echoDelay, events);
      case _ =>
    }
  }

  /** With a client connected at every playout tick, it hears everything the jitter buffer plays, and only that. */
  lemma {:induction false} AllPlayedIsHeard(depth: int, echoDelay: int, events: seq<Event>)
    requires FromJitter(events) && forall i :: 0 <= i < |events| && events[i].PlayoutTick? ==> events[i].writer
    ensures Payloads(Run(Idle(depth, echoDelay), events).toClient) ==
            Speaking(Played(New(depth), JitterOps(events)))
  {
    ClientHearsExactly(depth, echoDelay, events);
    HeardIsPlayed(depth, echoDelay, events);
  }

  lemma {:induction false} SpeakingMore(out: seq<Packet>, p: Packet)
    ensures Speaking(out + [p]) == Speaking(out) + Speaking([p])
  {
    assert (out + [p])[..|out|] == out;
    assert Speaking([p][..0]) == [];
  }

  lemma {:induction false} TickSpeaks(depth: int, events: seq<Event>)
    requires events != [] && events[|events| - 1].PlayoutTick?
    ensures var before := Played(New(depth), JitterOps(events[..|events| - 1]));
            var now := Played(New(depth), JitterOps(events));
            Speaking(now) == Speaking(before) + Speaking(NewlyPlayed(depth, events))
  {
    var ops := JitterOps(events[..|events| - 1]);
    var b := RunState(New(depth), ops);
    RunOneMore(New(depth), ops, DoPop);
    TickPlays(depth, events);
    if Ready(b) {
      SpeakingMore(Played(New(depth), ops), b.packets[0]);
    } else {
      assert Played(New(depth), JitterOps(events)) == Played(New(depth), ops);
    }
  }

  lemma {:induction false} OthersPlayNothing(depth: int, events: seq<Event>)
    requires events != [] && !events[|events| - 1].PlayoutTick?
    ensures Played(New(depth), JitterOps(events)) == Played(New(depth), JitterOps(events[..|events| - 1]))
  {
    var e := events[|events| - 1];
    if e.ProviderRtp? { RunOneMore(New(depth), JitterOps(events[..|events| - 1]), DoPush(e.packet)); }
  }

  lemma {:induction false} HeardIsPlayed(depth: int, echoDelay: int, events: seq<Event>)
    requires FromJitter(events) && forall i :: 0 <= i < |events| && events[i].PlayoutTick? ==> events[i].writer
    ensures Heard(depth, echoDelay, events) == Speaking(Played(New(depth), JitterOps(events)))
  {
    if events != [] {
      HeardIsPlayed(depth, echoDelay, events[..|events| - 1]);
      if events[|events| - 1].PlayoutTick? { TickSpeaks(depth, events); } else { OthersPlayNothing(depth, events); }
    }
  }
}
