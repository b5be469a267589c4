/**
  The call router as a state machine: every stretch between awaits is one step, answers
  and declines wait for the provider in `answering` and `declining`. The provider's calls
  return rather than throw.
 */
module RouterModel {
  import opened Basics

  datatype CallId = CallId(name: string)
  datatype Handle = Handle(n: int)
  datatype Device = Device(name: string)

  datatype Pending = Pending(from: string, to: string, resolved: bool, timer: Option<Handle>)

  datatype Reason = AnsweredElsewhere | Declined | TimedOut | CallerDisconnect

  datatype Effect =
    | Incoming(call: CallId)
    | Answered(call: CallId, device: Device)
    | Cancelled(call: CallId, reason: Reason)
    | StopRinging(call: CallId)
    | ProviderHangup(call: CallId)
    | ActiveStarted(number: string, call: CallId)
    | ActiveEnded(number: string)
    | RecordedMissed(call: CallId)
    | RecordedDeclined(call: CallId)
    | Rejected(call: CallId, device: Device)

  datatype Answering = Answering(call: CallId, device: Device)

  datatype State = State(
    pending: map<CallId, Pending>, active: map<string, CallId>,
    timers: map<Handle, CallId>, nextHandle: int,
    answering: map<Handle, Answering>, declining: map<Handle, CallId>,
    log: seq<Effect>)

  const Init := State(map[], map[], map[], 0, map[], map[], [])

  datatype Event =
    | CallComesIn(call: CallId, from: string, to: string)
    | Answer(call: CallId, device: Device)
    | AnswerReturns(answer: Handle, success: bool)
    | Decline(call: CallId)
    | DeclineReturns(decline: Handle)
    | CallerGone(call: CallId)
    | CallEnds(call: CallId, number: Option<string>)   // the active entry its search finds
    | RingTimeout(timer: Handle)

  predicate Enabled(s: State, e: Event) {
    match e
    case AnswerReturns(k, _) => k in s.answering
    case DeclineReturns(k) => k in s.declining
    case CallEnds(c, number) =>
      (match number
       case Some(n) => n in s.active && s.active[n] == c
       case None => forall n <- s.active :: s.active[n] != c)
    case RingTimeout(t) => t in s.timers
    case _ => true
  }

  function Say(s: State, effects: seq<Effect>): State { s.(log := s.log + effects) }

  function Fresh(s: State): Handle { Handle(s.nextHandle) }

  /** The race is decided: marked resolved, ring timer cancelled. */
  function Resolve(s: State, c: CallId): State
    requires c in s.pending
  {
    s.(timers := (match s.pending[c].timer case Some(t) => s.timers - {t} case None => s.timers),
       pending := s.pending[c := s.pending[c].(resolved := true, timer := None)])
  }

  function ComeIn(s: State, c: CallId, from: string, to: string): State {
    if c in s.pending then s
    else
      s.(pending := s.pending[c := Pending(from, to, false, Some(Fresh(s)))],
         timers := s.timers[Fresh(s) := c], nextHandle := s.nextHandle + 1, log := s.log + [Incoming(c)])
  }

  function BeginAnswer(s: State, c: CallId, device: Device): State {
    if c !in s.pending || s.pending[c].resolved then Say(s, [Rejected(c, device)])
    else
      var r := Resolve(s, c);
      r.(answering := r.answering[Fresh(r) := Answering(c, device)], nextHandle := r.nextHandle + 1)
  }

  /** The provider answered: the call leaves the pending ones as active. Or it did not: the call rings again. */
  function FinishAnswer(s: State, k: Handle, success: bool): State
    requires k in s.answering && s.answering[k].call in s.pending
  {
    var c, device := s.answering[k].call, s.answering[k].device;
    if success then
      s.(answering := s.answering - {k}, active := s.active[s.pending[c].to := c], pending := s.pending - {c},
         log := s.log + [Answered(c, device), Cancelled(c, AnsweredElsewhere), ActiveStarted(s.pending[c].to, c)])
    else
      s.(answering := s.answering - {k},
         pending := s.pending[c := s.pending[c].(resolved := false, timer := Some(Fresh(s)))],
         timers := s.timers[Fresh(s) := c], nextHandle := s.nextHandle + 1, log := s.log + [Rejected(c, device)])
  }

  function BeginDecline(s: State, c: CallId): State {
    if c !in s.pending || s.pending[c].resolved then s
    else
      var r := Resolve(s, c);
      r.(declining := r.declining[Fresh(r) := c], nextHandle := r.nextHandle + 1, log := r.log + [ProviderHangup(c)])
  }

  function FinishDecline(s: State, k: Handle): State
    requires k in s.declining
  {
    var c := s.declining[k];
    Say(s.(declining := s.declining - {k}, pending := s.pending - {c}),
        [StopRinging(c), Cancelled(c, Declined), RecordedDeclined(c)])
  }

  /** A ring timeout hangs up at the provider; a caller who is gone needs no hang-up. */
  function HangupFor(c: CallId, reason: Reason): seq<Effect> { if reason.TimedOut? then [ProviderHangup(c)] else [] }

  /** The caller gives up, or the ring timer runs out: the call is missed. */
  function Miss(s: State, c: CallId, reason: Reason): State {
    if c !in s.pending || s.pending[c].resolved then s
    else
      var r := Say(Resolve(s, c), HangupFor(c, reason));
      Say(r.(pending := r.pending - {c}), [StopRinging(c), Cancelled(c, reason), RecordedMissed(c)])
  }

  function EndActive(s: State, number: Option<string>): State {
    match number
    case None => s
    case Some(n) => Say(s.(active := s.active - {n}), [ActiveEnded(n)])
  }

  function Apply(s: State, e: Event): State
    requires Enabled(s, e) && AnswersPending(s)
  {
    match e
    case CallComesIn(c, from, to) => ComeIn(s, c, from, to)
    case Answer(c, device) => BeginAnswer(s, c, device)
    case AnswerReturns(k, success) => FinishAnswer(s, k, success)
    case Decline(c) => BeginDecline(s, c)
    case DeclineReturns(k) => FinishDecline(s, k)
    case CallerGone(c) => Miss(s, c, CallerDisconnect)
    case CallEnds(c, number) => if c in s.pending then Miss(s, c, CallerDisconnect) else EndActive(s, number)
    case RingTimeout(t) => Miss(s.(timers := s.timers - {t}), s.timers[t], TimedOut)
  }

  /** A suspended answer's record is still in the map. */
  predicate AnswersPending(s: State) { forall k <- s.answering :: s.answering[k].call in s.pending }
}
