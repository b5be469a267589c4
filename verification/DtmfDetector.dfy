/**
  The telephone-event payload (RFC 2833, section 3.5) and the digit detector: online,
  with its active and ended flags, and as a specification over the whole packet sequence.
 */
module DtmfDetector {
  import opened Basics

  const PAYLOAD_SIZE := 4

  datatype Event = Event(code: Byte, end: bool, volume: Byte, duration: int)

  /** Duration is 16 bits wide. */
  predicate Fits(e: Event) { 0 <= e.duration < 0x1_0000 }

  function BigEndian16(high: int, low: int): int { high * 0x100 + low }

  function ParsePayload(data: seq<Byte>): Option<Event> {
    if |data| < PAYLOAD_SIZE then None
    else Some(Event(data[0], data[1] >= 0x80, data[1] % 0x40, BigEndian16(data[2], data[3])))
  }

  function EncodedPayload(e: Event): (data: seq<Byte>)
    requires Fits(e)
    ensures |data| == PAYLOAD_SIZE
  {
    [e.code, (if e.end then 0x80 else 0) + e.volume % 0x40, e.duration / 0x100, e.duration % 0x100]
  }

  method EncodePayload(e: Event) returns (data: array<Byte>)
    requires Fits(e)
    ensures fresh(data) && data[..] == EncodedPayload(e)
  {
    data := new Byte[PAYLOAD_SIZE];
    data[0] := e.code;
    var flags: int := 0;
    if e.end { flags := flags + 0x80; }
    flags := flags + e.volume % 0x40;
    data[1] := flags;
    data[2], data[3] := e.duration / 0x100, e.duration % 0x100;
  }

  /** Encoding keeps an event exactly when its volume fits the field's six bits. */
  lemma EventSurvivesExactly(e: Event)
    requires Fits(e)
    ensures ParsePayload(EncodedPayload(e)) == Some(e) <==> e.volume < 0x40
    ensures ParsePayload(EncodedPayload(e)).Some? && ParsePayload(EncodedPayload(e)).value.code == e.code
    ensures ParsePayload(EncodedPayload(e)).value.end == e.end
  {
    var flags := (if e.end then 0x80 else 0) + e.volume % 0x40;
    assert flags % 0x40 == e.volume % 0x40;
    assert e.duration / 0x100 * 0x100 + e.duration % 0x100 == e.duration;
  }

  /** Parsing and encoding again keeps the first four bytes exactly when the reserved bit is clear. */
  lemma PayloadSurvivesExactly(data: seq<Byte>)
    requires |data| >= PAYLOAD_SIZE
    ensures var e := ParsePayload(data).value;
            Fits(e) && (EncodedPayload(e) == data[..PAYLOAD_SIZE] <==> data[1] % 0x80 < 0x40)
  {
    var e := ParsePayload(data).value;
    var word := BigEndian16(data[2], data[3]);
    assert word / 0x100 == data[2] && word % 0x100 == data[3];
    assert data[1] % 0x40 % 0x40 == data[1] % 0x40;
    var rest := data[1] % 0x80;
    assert data[1] == (if data[1] >= 0x80 then 0x80 else 0) + rest;
    assert data[1] % 0x40 == if rest < 0x40 then rest else rest - 0x40;
    assert EncodedPayload(e)[1] == data[1] <==> rest < 0x40;
    if rest < 0x40 { assert EncodedPayload(e) == data[..PAYLOAD_SIZE]; }
    assert data[..PAYLOAD_SIZE][1] == data[1];
  }

  /** The payload as one 32-bit word in network order: code, end bit, reserved bit, volume, duration (section 3.5). */
  function Word(code: int, end: bool, reserved: int, volume: int, duration: int): int {
    code * 0x100_0000 + (if end then 0x80_0000 else 0) + reserved * 0x40_0000 + volume * 0x1_0000 + duration
  }

  function NetworkOrder(b0: int, b1: int, b2: int, b3: int): int {
    b0 * 0x100_0000 + b1 * 0x1_0000 + b2 * 0x100 + b3
  }

  /** Every field stands in its place: what is encoded, with the reserved bit clear, and what is parsed. */
  lemma PayloadIsWord(e: Event, data: seq<Byte>)
    requires Fits(e)
    ensures var d := EncodedPayload(e);
            NetworkOrder(d[0], d[1], d[2], d[3]) == Word(e.code, e.end, 0, e.volume % 0x40, e.duration)
    ensures ParsePayload(data).Some? <==> |data| >= 4
    ensures |data| >= 4 ==>
              var p := ParsePayload(data).value;
              && p.volume < 0x40 && Fits(p)
              && exists reserved | 0 <= reserved < 2 ::
                   NetworkOrder(data[0], data[1], data[2], data[3]) ==
                   Word(p.code, p.end, reserved, p.volume, p.duration)
  {
    assert e.duration / 0x100 * 0x100 + e.duration % 0x100 == e.duration;
    if |data| >= 4 {
      var rest := data[1] % 0x80;
      assert data[1] == (if data[1] >= 0x80 then 0x80 else 0) + rest;
      assert data[1] % 0x40 == if rest < 0x40 then rest else rest - 0x40;
      var p, reserved := ParsePayload(data).value, if rest < 0x40 then 0 else 1;
      assert NetworkOrder(data[0], data[1], data[2], data[3]) ==
             Word(p.code, p.end, reserved, p.volume, p.duration);
    }
  }

  function EventCodeToDigit(code: Byte): Option<char> {
    if code < 10 then Some('0' + code as char)
    else if code == 10 then Some('*') else if code == 11 then Some('#')
    else if code < 16 then Some('A' + (code - 12) as char)
    else None
  }

  function DigitToEventCode(digit: char): Option<Byte> {
    if '0' <= digit <= '9' then Some((digit - '0') as int)
    else if digit == '*' then Some(10) else if digit == '#' then Some(11)
    else if 'A' <= digit <= 'D' then Some((digit - 'A') as int + 12)
    else if 'a' <= digit <= 'd' then Some((digit - 'a') as int + 12)
    else None
  }

  /** Every code with a digit comes back from it, and a digit comes back unless it is a lower-case letter. */
  lemma DigitsSurvive(code: Byte, digit: char)
    ensures EventCodeToDigit(code).Some? <==> code < 16
    ensures EventCodeToDigit(code).Some? ==> DigitToEventCode(EventCodeToDigit(code).value) == Some(code)
    ensures DigitToEventCode(digit).Some? ==>
              (EventCodeToDigit(DigitToEventCode(digit).value) == Some(digit) <==> !('a' <= digit <= 'd'))
  {
  }

  /** The digits in the order of their codes (section 3.10); letters are read in either case. */
  lemma DigitsInOrder(code: Byte, digit: char)
    ensures EventCodeToDigit(code) == if code < 16 then Some("0123456789*#ABCD"[code]) else None
    ensures DigitToEventCode(digit) == Some(code) <==>
            code < 16 && (digit == "0123456789*#ABCD"[code] || digit == "0123456789*#abcd"[code])
  {
  }

  // ---------------------------------------------------------------- online

  datatype State = State(active: set<Byte>, ended: set<Byte>)

  const Init := State({}, {})

  function Step(s: State, packet: seq<Byte>): State {
    match ParsePayload(packet)
    case None => s
    case Some(e) =>
      if e.end then
        if e.code in s.ended then s else State(s.active - {e.code}, s.ended + {e.code})
      else State(s.active + {e.code}, if e.code in s.active then s.ended else s.ended - {e.code})
  }

  function Digit(s: State, packet: seq<Byte>): seq<char> {
    match ParsePayload(packet)
    case None => []
    case Some(e) =>
      if !e.end || e.code in s.ended then []
      else match EventCodeToDigit(e.code) case Some(d) => [d] case None => []
  }

  function After(packets: seq<seq<Byte>>): State {
    if packets == [] then Init else Step(After(packets[..|packets| - 1]), packets[|packets| - 1])
  }

  function Digits(packets: seq<seq<Byte>>): seq<char> {
    if packets == [] then []
    else Digits(packets[..|packets| - 1]) + Digit(After(packets[..|packets| - 1]), packets[|packets| - 1])
  }

  // ---------------------------------------------------------------- offline

  /** The last well-formed event with this code. */
  function Last(packets: seq<seq<Byte>>, code: Byte): Option<Event> {
    if packets == [] then None
    else
      var e := ParsePayload(packets[|packets| - 1]);
      if e.Some? && e.value.code == code then e else Last(packets[..|packets| - 1], code)
  }

  /** Packet i is the first end packet of a key press of a digit. */
  predicate Completes(packets: seq<seq<Byte>>, i: nat)
    requires i < |packets|
  {
    var e := ParsePayload(packets[i]);
    && e.Some? && e.value.end && e.value.code < 16
    && (var previous := Last(packets[..i], e.value.code); previous.None? || !previous.value.end)
  }

  function Expected(packets: seq<seq<Byte>>): seq<char> {
    if packets == [] then []
    else
      var k := |packets| - 1;
      Expected(packets[..k]) +
      if Completes(packets, k) then [EventCodeToDigit(ParsePayload(packets[k]).value.code).value] else []
  }

  /** The flags say what the last packet of a code was, and are never both set. */
  lemma {:induction false} FlagsAreLast(packets: seq<seq<Byte>>, code: Byte)
    ensures code in After(packets).ended <==> Last(packets, code).Some? && Last(packets, code).value.end
    ensures code in After(packets).active <==> Last(packets, code).Some? && !Last(packets, code).value.end
  {
    if packets != [] {
      FlagsAreLast(packets[..|packets| - 1], code);
    }
  }

  /** The online detector reports exactly the digits the specification expects. */
  lemma {:induction false} DetectsExactly(packets: seq<seq<Byte>>)
    ensures Digits(packets) == Expected(packets)
  {
    if packets != [] {
      var k := |packets| - 1;
      DetectsExactly(packets[..k]);
      var e := ParsePayload(packets[k]);
      if e.Some? { FlagsAreLast(packets[..k], e.value.code); }
    }
  }

  /** The packets of one code, in order. */
  function OfCode(packets: seq<seq<Byte>>, code: Byte): seq<seq<Byte>> {
    if packets == [] then []
    else
      var before, p := OfCode(packets[..|packets| - 1], code), packets[|packets| - 1];
      if ParsePayload(p).Some? && ParsePayload(p).value.code == code then before + [p] else before
  }

  /** How often a digit is among the first reports. */
  function Reports(packets: seq<seq<Byte>>, code: Byte): nat
    requires code < 16
  {
    multiset(Digits(packets))[EventCodeToDigit(code).value]
  }

  lemma {:induction false} LastOfCode(packets: seq<seq<Byte>>, code: Byte)
    ensures Last(OfCode(packets, code), code) == Last(packets, code)
  {
    if packets != [] {
      LastOfCode(packets[..|packets| - 1], code);
    }
  }

  lemma {:induction false} OwnPacket(packets: seq<seq<Byte>>, p: seq<Byte>, code: Byte)
    requires code < 16 && ParsePayload(p).Some? && ParsePayload(p).value.code == code
    ensures Digit(After(packets), p) == Digit(After(OfCode(packets, code)), p)
  {
    LastOfCode(packets, code);
    FlagsAreLast(packets, code);
    FlagsAreLast(OfCode(packets, code), code);
  }

  lemma OtherPacket(s: State, p: seq<Byte>, code: Byte)
    requires code < 16 && !(ParsePayload(p).Some? && ParsePayload(p).value.code == code)
    ensures EventCodeToDigit(code).value !in Digit(s, p)
  {
    DigitsSurvive(code, '0');
    if ParsePayload(p).Some? { DigitsSurvive(ParsePayload(p).value.code, '0'); }
  }

  lemma CountAppend(a: seq<char>, b: seq<char>, c: char)
    ensures multiset(a + b)[c] == multiset(a)[c] + multiset(b)[c]
    ensures c !in b ==> multiset(b)[c] == 0
  {
  }

  /** Codes do not interfere: a digit is reported as often as if only its own packets had come. */
  lemma {:induction false} CodesApart(packets: seq<seq<Byte>>, code: Byte)
    requires code < 16
    ensures Reports(packets, code) == Reports(OfCode(packets, code), code)
  {
    if packets != [] {
      var before, p := packets[..|packets| - 1], packets[|packets| - 1];
      var own, c := OfCode(before, code), EventCodeToDigit(code).value;
      CodesApart(before, code);
      CountAppend(Digits(before), Digit(After(before), p), c);
      if ParsePayload(p).Some? && ParsePayload(p).value.code == code {
        OwnPacket(before, p, code);
        assert (own + [p])[..|own|] == own;
        CountAppend(Digits(own), Digit(After(own), p), c);
      } else {
        OtherPacket(After(before), p, code);
      }
    }
  }

  // ---------------------------------------------------------------- the detector

  class Detector {
    var active: set<Byte>
    var ended: set<Byte>
    var digits: seq<char>

    constructor ()
      ensures State(active, ended) == Init && digits == []
    {
      active, ended, digits := {}, {}, [];
    }

    method ProcessPacket(packet: seq<Byte>)
      modifies this
      ensures State(active, ended) == Step(old(State(active, ended)), packet)
      ensures digits == old(digits) + Digit(old(State(active, ended)), packet)
    {
      var e := ParsePayload(packet);
      if e.None? { return; }
      var code := e.value.code;
      if e.value.end {
        if code in ended { return; }
        ended := ended + {code};
        active := active - {code};
        var digit := EventCodeToDigit(code);
        if digit.Some? { digits := digits + [digit.value]; }
      } else {
        if code !in active { ended := ended - {code}; }
        active := active + {code};
      }
    }
  }
}
