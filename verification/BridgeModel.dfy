/**
  The media bridge on values: provider audio through the jitter buffer or decoded PCM,
  client audio to the provider or into the echo queue, and the renumbering of everything
  written (RFC 3550, section 5.1: sequence numbers count packets modulo 2^16,
  timestamps count samples modulo 2^32; one byte of mu-law is one sample).
 */
module BridgeModel {
  import opened Basics
  import opened JitterModel
  import opened Ulaw
  import opened Resample

  datatype Rtp = Rtp(seqNo: Seq16, timestamp: int, payload: seq<Byte>)

  datatype EchoFrame = EchoFrame(payload: seq<Byte>, playAt: int)

  datatype State = State(
    jitter: Buffer, echoDelay: int,
    sipSeq: Seq16, sipTimestamp: int, webSeq: Seq16, webTimestamp: int,
    echo: seq<EchoFrame>, toProvider: seq<Rtp>, toClient: seq<Rtp>)

  /** What reaches the bridge; `writer` says whether the leg it would write to is connected. */
  datatype Event =
    | ProviderRtp(packet: Packet)
    | PlayoutTick(writer: bool)
    | ClientRtp(payload: seq<Byte>, now: int, writer: bool)
    | EchoTick(now: int, writer: bool)
    | ProviderPcm(data: seq<Byte>, writer: bool)

  function Idle(depth: int, echoDelay: int): State {
    State(New(depth), echoDelay, 0, 0, 0, 0, [], [], [])
  }

  function Mod32(n: int): int { n % 0x1_0000_0000 }

  /** The next packet to the client: number and timestamp move on, then it is written. */
  function Emit(s: State, payload: seq<Byte>): State {
    var t := Mod32(s.webTimestamp + |payload|);
    s.(webSeq := Next16(s.webSeq), webTimestamp := t, toClient := s.toClient + [Rtp(Next16(s.webSeq), t, payload)])
  }

  function WriteFrame(s: State, payload: seq<Byte>, writer: bool): State {
    if !writer || payload == [] then s else Emit(s, payload)
  }

  function Playout(s: State, writer: bool): State {
    var popped := s.(jitter := Pop(s.jitter));
    if Ready(s.jitter) then WriteFrame(popped, s.jitter.packets[0].payload, writer) else popped
  }

  function Forward(s: State, payload: seq<Byte>): State {
    var t := Mod32(s.sipTimestamp + |payload|);
    s.(sipSeq := Next16(s.sipSeq), sipTimestamp := t, toProvider := s.toProvider + [Rtp(Next16(s.sipSeq), t, payload)])
  }

  function ClientAudio(s: State, payload: seq<Byte>, now: int, writer: bool): State {
    if s.echoDelay > 0 then
      if payload == [] then s else s.(echo := s.echo + [EchoFrame(payload, now + s.echoDelay)])
    else if !writer || payload == [] then s
    else Forward(s, payload)
  }

  /** How many frames at the head of the queue are due. */
  function DueCount(queue: seq<EchoFrame>, now: int): (n: nat)
    ensures n <= |queue|
    ensures forall i :: 0 <= i < n ==> queue[i].playAt <= now
    ensures n < |queue| ==> queue[n].playAt > now
  {
    if queue == [] || queue[0].playAt > now then 0 else 1 + DueCount(queue[1..], now)
  }

  function WriteAll(s: State, frames: seq<EchoFrame>, writer: bool): State {
    if frames == [] then s
    else WriteFrame(WriteAll(s, frames[..|frames| - 1], writer), frames[|frames| - 1].payload, writer)
  }

  function EchoPlayout(s: State, now: int, writer: bool): State {
    var n := DueCount(s.echo, now);
    WriteAll(s.(echo := s.echo[n..]), s.echo[..n], writer)
  }

  function PcmPayload(data: seq<Byte>): (payload: seq<Byte>)
    ensures |payload| == |data| / 2 / 2
  {
    EncodeAll(Downsampled16to8(FromBytes(data)))
  }

  /** What a PCM provider is sent for a client packet: decoded, at twice the rate, as bytes. */
  function ClientPcm(payload: seq<Byte>): (data: seq<Byte>)
    ensures |data| == 4 * |payload|
  {
    ToBytes(Upsampled8to16(DecodeAll(payload)))
  }

  /** Decoded provider audio moves number and timestamp on even when there is nobody to write to. */
  function PcmAudio(s: State, data: seq<Byte>, writer: bool): State {
    var written := Emit(s, PcmPayload(data));
    if writer then written else written.(toClient := s.toClient)
  }

  function Step(s: State, e: Event): State {
    match e
    case ProviderRtp(p) => s.(jitter := Push(s.jitter, p))
    case PlayoutTick(writer) => Playout(s, writer)
    case ClientRtp(payload, now, writer) => ClientAudio(s, payload, now, writer)
    case EchoTick(now, writer) => EchoPlayout(s, now, writer)
    case ProviderPcm(data, writer) => PcmAudio(s, data, writer)
  }

  function Run(s: State, events: seq<Event>): State {
    if events == [] then s else Step(Run(s, events[..|events| - 1]), events[|events| - 1])
  }
}
