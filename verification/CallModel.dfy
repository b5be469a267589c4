/**
  The call orchestrator as a state machine on values.

  One event is one stretch of code between two awaits: no other code runs inside
  it. A suspended operation is a record in `outbound`, `inbound`, `attempts` or
  `batches` that says where it will resume; the event that resumes it carries the
  outcome of the awaited call, so every interleaving of operations and every
  failure is some sequence of events.

  A media session has the id of its call, so both are written `Id` and the session
  map is keyed by the call's own id.
 */
module CallModel {
  import opened Basics

  /** UUIDs, provider call ids, notification ids and device ids, compared for equality only. */
  type Id = int

  const UNANSWERED_WATCHDOG_MS: int := 90_000
  const MAX_CALL_DURATION_MS: int := 4 * 60 * 60 * 1000

  /** One ActiveCall record. It outlives its place in the maps: a suspended answer still refers to it. */
  datatype Call = Call(
    providerCallId: Id, inbound: bool, wsAudio: bool,
    answered: bool, device: Option<Id>, startedAt: int, answeredAt: Option<int>,
    ended: bool, watchdog: Option<int>)

  /** A pending setTimeout of armWatchdog. */
  datatype Timer = Timer(call: Id, due: int)

  /** Where initiateOutbound is suspended. */
  datatype OutboundStage = CreatingSession | Dialing | Patching(providerCallId: Id)
  datatype Outbound = Outbound(device: Id, echo: bool, wsAudio: bool, stage: OutboundStage)

  /** Where handleInbound, and the notification promise it leaves behind, is suspended. */
  datatype Inbound = OpeningSession(providerCallId: Id, wsAudio: bool) | ReadingNumbers | Notifying

  /** Where answerCall is suspended; it keeps the call record and the device. */
  datatype AnswerStage = PatchingSession | AwaitingProvider
  datatype Attempt = Attempt(call: Id, device: Id, stage: AnswerStage)

  /** Where endAllCalls or reconcileActiveSessions is suspended. */
  datatype Batch =
    | EndAll(started: set<Id>, todo: seq<Id>)
    | Reconcile(todo: seq<Id>, querying: Option<Id>)

  datatype Trigger = Declined | ProviderDisconnected | OtherTrigger
  datatype CancelReason = DeclinedByUser | CallerDisconnect
  datatype AnswerResult = Success | NotFound | AlreadyAnswered | PrepareFailed | ProviderFailed
  /** The branch a teardown takes in the history; NoUpdate is the one that writes nothing. */
  datatype HistoryUpdate = NoUpdate | MarkDeclined | MarkMissed | SetDuration(seconds: int) | MarkUnanswered
  datatype MediaKind = ProviderGone | ClientGone | ProviderUp | ClientUp | Digit | Candidate

  /** Everything a step sends to clients, providers, the media bridge and the history. */
  datatype Effect =
    | Disconnected(call: Id)
    | Cancelled(call: Id, reason: CancelReason)
    | DestroySession(call: Id, delayMs: int)
    | Hangup(call: Id, providerCallId: Id)
    | History(call: Id, update: HistoryUpdate)
    | NotificationResolved(call: Id)
    | NotificationMissed(call: Id)
    | HistoryRecorded(call: Id, incoming: bool)
    | Ringing(call: Id)
    | Connected(call: Id)
    | DtmfToClients(call: Id)
    | CandidateTo(call: Id, target: Option<Id>)
    | AnswerCommand(call: Id, device: Id)
    | AnsweredElsewhere(call: Id, except: Id)
    | MarkedAnswered(call: Id, device: Id)
    | AnswerReply(call: Id, result: AnswerResult)

  datatype State = State(
    now: int,
    calls: map<Id, Call>,
    active: set<Id>,
    session: map<Id, Id>,
    provider: map<Id, Id>,
    notification: map<Id, Id>,
    timers: map<int, Timer>,
    nextTimer: int,
    outbound: map<Id, Outbound>,
    inbound: map<Id, Inbound>,
    attempts: map<int, Attempt>,
    nextAttempt: int,
    batches: map<int, Batch>,
    nextBatch: int,
    issued: set<Id>,
    lastLive: map<Id, int>,
    log: seq<Effect>)

  const Init := State(0, map[], {}, map[], map[], map[], map[], 0, map[], map[], map[], 0, map[], 0, {}, map[], [])

  datatype Event =
    | Tick(elapsed: nat)
    | OutboundStart(id: Id, device: Id, echo: bool, wsAudio: bool)
    | OutboundSession(id: Id, ok: bool)
    | OutboundDialed(id: Id, dialed: Option<Id>)
    | OutboundPatched(id: Id)
    | InboundStart(id: Id, providerCallId: Id, wsAudio: bool)
    | InboundSession(id: Id, ok: bool)
    | InboundNumbers(id: Id, ok: bool)
    | InboundNotified(id: Id, created: Option<Id>)
    | Answer(requested: Id, device: Id)
    | AnswerPatched(attempt: int, ok: bool)
    | AnswerSettled(attempt: int, ok: bool)
    | End(requested: Id, trigger: Trigger)
    | Media(sessionId: Id, kind: MediaKind)
    | WatchdogFires(timer: int)
    | EndAllStart(order: seq<Id>)
    | EndAllNext(batch: int)
    | ReconcileStart(order: seq<Id>)
    | ReconcileNext(batch: int)
    | ReconcileReply(batch: int, gone: bool)
    | Dispose

  /** What every step relies on to be defined: the records it dereferences exist. */
  ghost predicate WellFormed(s: State) {
    && s.active <= s.calls.Keys
    && (forall a <- s.attempts :: s.attempts[a].call in s.calls)
  }

  /** The provider call ids of tracked calls and of calls still being set up. */
  ghost predicate ProviderIdInUse(s: State, p: Id) {
    p in s.provider || exists i <- s.outbound :: s.outbound[i].stage == Patching(p)
  }

  /**
    What the environment may do next. Two clauses are assumptions on it: randomUUID
    returns an id never returned before, and a provider names a new call by an id
    that no call being tracked or set up has. Dispose is allowed when no
    handleInbound is waiting for its media session (see DisposeExact).
   */
  ghost predicate Enabled(s: State, e: Event) {
    match e
    case Tick(_) => true
    case OutboundStart(id, _, _, _) => id !in s.issued
    case OutboundSession(id, _) => id in s.outbound && s.outbound[id].stage == CreatingSession
    case OutboundDialed(id, dialed) => id in s.outbound && s.outbound[id].stage == Dialing &&
      (dialed.Some? ==> !ProviderIdInUse(s, dialed.value))
    case OutboundPatched(id) => id in s.outbound && s.outbound[id].stage.Patching?
    case InboundStart(id, p, _) => id !in s.issued && !ProviderIdInUse(s, p)
    case InboundSession(id, _) => id in s.inbound && s.inbound[id].OpeningSession?
    case InboundNumbers(id, _) => id in s.inbound && s.inbound[id].ReadingNumbers?
    case InboundNotified(id, _) => id in s.inbound && s.inbound[id].Notifying?
    case Answer(_, _) => true
    case AnswerPatched(a, _) => a in s.attempts && s.attempts[a].stage == PatchingSession
    case AnswerSettled(a, _) => a in s.attempts && s.attempts[a].stage == AwaitingProvider
    case End(_, _) => true
    case Media(_, _) => true
    case WatchdogFires(t) => t in s.timers && s.timers[t].due <= s.now
    case EndAllStart(order) => forall id :: id in order <==> id in s.active
    case EndAllNext(b) => b in s.batches && s.batches[b].EndAll? && s.batches[b].todo != []
    case ReconcileStart(order) => forall id :: id in order <==> id in s.active
    case ReconcileNext(b) =>
      b in s.batches && s.batches[b].Reconcile? && s.batches[b].querying.None? && s.batches[b].todo != []
    case ReconcileReply(b, _) => b in s.batches && s.batches[b].Reconcile? && s.batches[b].querying.Some?
    case Dispose => NoInboundOpening(s)
  }

  ghost predicate NoInboundOpening(s: State) {
    forall id <- s.inbound :: !s.inbound[id].OpeningSession?
  }

  // ---------------------------------------------------------------- building blocks

  function ClearTimer(timers: map<int, Timer>, handle: Option<int>): map<int, Timer> {
    match handle case Some(t) => timers - {t} case None => timers
  }

  /** armWatchdog: cancel the call's timer if it has one and schedule a new one. */
  function ArmWatchdog(s: State, c: Id, timeoutMs: int): State
    requires c in s.calls
  {
    s.(timers := ClearTimer(s.timers, s.calls[c].watchdog)[s.nextTimer := Timer(c, s.now + timeoutMs)],
       nextTimer := s.nextTimer + 1,
       calls := s.calls[c := s.calls[c].(watchdog := Some(s.nextTimer))])
  }

  /** resolveToCallId: a call id of an active call, else a notification id, else a provider call id. */
  function Resolve(s: State, id: Id): Id {
    if id in s.active then id
    else if id in s.notification && s.notification[id] in s.active then s.notification[id]
    else if id in s.provider then s.provider[id]
    else id
  }

  /** Math.round of a number of milliseconds in seconds: halves go up. */
  function RoundSeconds(ms: int): int { (ms + 500) / 1000 }

  function EndHistory(call: Call, trigger: Trigger, now: int): HistoryUpdate {
    if call.inbound && !call.answered then
      if trigger.Declined? then MarkDeclined else MarkMissed
    else if call.answeredAt.Some? && RoundSeconds(now - call.answeredAt.value) > 0 then
      SetDuration(RoundSeconds(now - call.answeredAt.value))
    else if !call.inbound && !call.answered then MarkUnanswered
    else NoUpdate
  }

  function EndEffects(c: Id, call: Call, trigger: Trigger, now: int): seq<Effect> {
    var update := EndHistory(call, trigger, now);
    [ Disconnected(c),
      Cancelled(c, if trigger.Declined? then DeclinedByUser else CallerDisconnect),
      DestroySession(c, if trigger.ProviderDisconnected? then 200 else 0),
      Hangup(c, call.providerCallId),
      History(c, update) ]
    + (if update.MarkDeclined? then [NotificationResolved(c)]
       else if update.MarkMissed? then [NotificationMissed(c)] else [])
  }

  /** The notification entries that do not lead to a call. */
  function WithoutCall(notification: map<Id, Id>, c: Id): map<Id, Id> {
    map n | n in notification && notification[n] != c :: notification[n]
  }

  /** The body of endCall once the call is found and not yet ended. */
  function EndTracked(s: State, c: Id, trigger: Trigger): State
    requires c in s.calls
  {
    var call := s.calls[c];
    s.(calls := s.calls[c := call.(ended := true, watchdog := None)],
       timers := ClearTimer(s.timers, call.watchdog),
       log := s.log + EndEffects(c, call, trigger, s.now),
       active := s.active - {c},
       session := s.session - {c},
       provider := s.provider - {call.providerCallId},
       notification := WithoutCall(s.notification, c))
  }

  function EndCall(s: State, requested: Id, trigger: Trigger): State
    requires s.active <= s.calls.Keys
  {
    var c := Resolve(s, requested);
    if c !in s.active || s.calls[c].ended then s else EndTracked(s, c, trigger)
  }

  /** How a provider's hang-up comes in: its call id is looked up, and the call is ended under its own id. */
  function HangUp(s: State, p: Id, trigger: Trigger): State
    requires s.active <= s.calls.Keys
  {
    if p in s.provider then EndCall(s, s.provider[p], trigger) else s
  }

  /** The tracking step common to both directions: record, session entry, short watchdog. */
  function Track(s: State, c: Id, call: Call): State {
    ArmWatchdog(s.(calls := s.calls[c := call], active := s.active + {c}, session := s.session[c := c]),
                c, UNANSWERED_WATCHDOG_MS)
  }

  function NewCall(s: State, p: Id, inbound: bool, wsAudio: bool, device: Option<Id>): Call {
    Call(p, inbound, wsAudio, false, device, s.now, None, false, None)
  }

  function TrackOutbound(s: State, c: Id, p: Id): State
    requires c in s.outbound
  {
    var o := s.outbound[c];
    var s1 := s.(outbound := s.outbound - {c}, provider := s.provider[p := c]);
    var s2 := Track(s1, c, NewCall(s, p, false, o.wsAudio, Some(o.device)));
    s2.(log := s2.log + [HistoryRecorded(c, false)])
  }

  function TrackInbound(s: State, c: Id, p: Id, wsAudio: bool): State {
    var s1 := Track(s.(inbound := s.inbound[c := ReadingNumbers]), c, NewCall(s, p, true, wsAudio, None));
    s1.(log := s1.log + [HistoryRecorded(c, true)])
  }

  function Say(s: State, effects: seq<Effect>): State { s.(log := s.log + effects) }

  // ---------------------------------------------------------------- answering

  /** A tracked call becomes live, through an answer or through its own media: re-arm to the long cap. */
  function GoLive(s: State, c: Id, device: Option<Id>): State
    requires c in s.calls
  {
    var s1 := s.(calls := s.calls[c := s.calls[c].(answered := true, device := device, answeredAt := Some(s.now))],
                 lastLive := s.lastLive[c := s.now]);
    ArmWatchdog(s1, c, MAX_CALL_DURATION_MS)
  }

  function RollBack(s: State, c: Id): State
    requires c in s.calls
  {
    s.(calls := s.calls[c := s.calls[c].(answered := false, device := None, answeredAt := None)])
  }

  /** The tail of answerCall: announcements and the successful reply. */
  function FinishAnswer(s: State, c: Id, device: Id): State {
    Say(s, [AnsweredElsewhere(c, device), MarkedAnswered(c, device), NotificationResolved(c), AnswerReply(c, Success)])
  }

  function BeginAnswer(s: State, requested: Id, device: Id): State
    requires s.active <= s.calls.Keys
  {
    var c := Resolve(s, requested);
    if c !in s.active then Say(s, [AnswerReply(c, NotFound)])
    else if s.calls[c].answered then Say(s, [AnswerReply(c, AlreadyAnswered)])
    else FreshAnswer(s, c, device)
  }

  /** answerCall wins the race for a tracked call: mark it, then suspend on the provider or finish at once. */
  function FreshAnswer(s: State, c: Id, device: Id): State
    requires c in s.calls
  {
    var s1 := GoLive(s, c, Some(device));
    if !s.calls[c].inbound then FinishAnswer(s1, c, device)
    else if s.calls[c].wsAudio then StartAttempt(s1, c, device, PatchingSession)
    else Say(StartAttempt(s1, c, device, AwaitingProvider), [AnswerCommand(c, device)])
  }

  function StartAttempt(s: State, c: Id, device: Id, stage: AnswerStage): State {
    s.(attempts := s.attempts[s.nextAttempt := Attempt(c, device, stage)], nextAttempt := s.nextAttempt + 1)
  }

  function ContinueAnswer(s: State, a: int, ok: bool): State
    requires a in s.attempts && s.attempts[a].call in s.calls
  {
    var t := s.attempts[a];
    if ok then Say(s.(attempts := s.attempts[a := t.(stage := AwaitingProvider)]), [AnswerCommand(t.call, t.device)])
    else Say(RollBack(s.(attempts := s.attempts - {a}), t.call), [AnswerReply(t.call, PrepareFailed)])
  }

  function SettleAnswer(s: State, a: int, ok: bool): State
    requires a in s.attempts && s.attempts[a].call in s.calls
  {
    var t := s.attempts[a];
    var s1 := s.(attempts := s.attempts - {a});
    if ok then FinishAnswer(s1, t.call, t.device)
    else Say(RollBack(s1, t.call), [AnswerReply(t.call, ProviderFailed)])
  }

  // ---------------------------------------------------------------- media events and timers

  function HandleMedia(s: State, sessionId: Id, kind: MediaKind): State
    requires s.active <= s.calls.Keys
  {
    if sessionId !in s.session || s.session[sessionId] !in s.active then s
    else
      var c := s.session[sessionId];
      match kind
      case ProviderGone => EndCall(s, c, ProviderDisconnected)
      case ClientGone => EndCall(s, c, OtherTrigger)
      case ProviderUp =>
        Say(if !s.calls[c].answered && !s.calls[c].inbound then GoLive(s, c, s.calls[c].device) else s, [Connected(c)])
      case ClientUp => s
      case Digit => Say(s, [DtmfToClients(c)])
      case Candidate => Say(s, [CandidateTo(c, s.calls[c].device)])
  }

  function FireWatchdog(s: State, t: int): State
    requires s.active <= s.calls.Keys && t in s.timers
  {
    var c := s.timers[t].call;
    var s1 := s.(timers := s.timers - {t});
    if c !in s.active || s.calls[c].ended then s1 else EndCall(s1, c, OtherTrigger)
  }

  // ---------------------------------------------------------------- bulk operations

  function StepEndAll(s: State, b: int): State
    requires s.active <= s.calls.Keys && b in s.batches && s.batches[b].EndAll? && s.batches[b].todo != []
  {
    var t := s.batches[b];
    EndCall(s, t.todo[0], OtherTrigger).(batches := s.batches[b := EndAll(t.started, t.todo[1..])])
  }

  function StepReconcile(s: State, b: int): State
    requires s.active <= s.calls.Keys && b in s.batches && s.batches[b].Reconcile? && s.batches[b].todo != []
  {
    var t := s.batches[b];
    var c := t.todo[0];
    var skip := c !in s.calls || s.calls[c].ended || !s.calls[c].answered;
    s.(batches := s.batches[b := Reconcile(t.todo[1..], if skip then None else Some(c))])
  }

  function ReplyReconcile(s: State, b: int, gone: bool): State
    requires s.active <= s.calls.Keys && b in s.batches && s.batches[b].Reconcile? && s.batches[b].querying.Some?
  {
    var t := s.batches[b];
    var s1 := s.(batches := s.batches[b := Reconcile(t.todo, None)]);
    if gone then EndCall(s1, t.querying.value, OtherTrigger) else s1
  }

  /** dispose: cancel the timers of the tracked calls and forget everything tracked. */
  function DisposeAll(s: State): State
    requires s.active <= s.calls.Keys
  {
    s.(timers := map t | t in s.timers && !(exists c <- s.active :: s.calls[c].watchdog == Some(t)) :: s.timers[t],
       calls := map c | c in s.calls :: if c in s.active then s.calls[c].(watchdog := None) else s.calls[c],
       active := {}, session := map[], provider := map[], notification := map[])
  }

  // ---------------------------------------------------------------- the transition function

  ghost function Apply(s: State, e: Event): State
    requires WellFormed(s) && Enabled(s, e)
  {
    match e
    case Tick(elapsed) => Advance(s, elapsed)
    case OutboundStart(id, device, echo, wsAudio) => StartOutbound(s, id, device, echo, wsAudio)
    case OutboundSession(id, ok) => OpenOutbound(s, id, ok)
    case OutboundDialed(id, dialed) => DialOutbound(s, id, dialed)
    case OutboundPatched(id) => TrackOutbound(s, id, s.outbound[id].stage.providerCallId)
    case InboundStart(id, p, wsAudio) => StartInbound(s, id, p, wsAudio)
    case InboundSession(id, ok) => OpenInbound(s, id, ok)
    case InboundNumbers(id, ok) => AnnounceInbound(s, id, ok)
    case InboundNotified(id, created) => NotifyInbound(s, id, created)
    case Answer(requested, device) => BeginAnswer(s, requested, device)
    case AnswerPatched(a, ok) => ContinueAnswer(s, a, ok)
    case AnswerSettled(a, ok) => SettleAnswer(s, a, ok)
    case End(requested, trigger) => EndCall(s, requested, trigger)
    case Media(sessionId, kind) => HandleMedia(s, sessionId, kind)
    case WatchdogFires(t) => FireWatchdog(s, t)
    case EndAllStart(order) => StartBatch(s, EndAll(s.active, order))
    case EndAllNext(b) => StepEndAll(s, b)
    case ReconcileStart(order) => StartBatch(s, Reconcile(order, None))
    case ReconcileNext(b) => StepReconcile(s, b)
    case ReconcileReply(b, gone) => ReplyReconcile(s, b, gone)
    case Dispose => DisposeAll(s)
  }

  function Advance(s: State, elapsed: nat): State { s.(now := s.now + elapsed) }

  function StartOutbound(s: State, id: Id, device: Id, echo: bool, wsAudio: bool): State {
    s.(issued := s.issued + {id}, outbound := s.outbound[id := Outbound(device, echo, wsAudio, CreatingSession)])
  }

  function OpenOutbound(s: State, id: Id, ok: bool): State
    requires id in s.outbound
  {
    s.(outbound := if ok then s.outbound[id := s.outbound[id].(stage := Dialing)] else s.outbound - {id})
  }

  /** getNumbers settles: on success the notification is requested and clients are told it rings. */
  function AnnounceInbound(s: State, id: Id, ok: bool): State {
    if ok then Say(s.(inbound := s.inbound[id := Notifying]), [Ringing(id)]) else s.(inbound := s.inbound - {id})
  }

  function StartBatch(s: State, batch: Batch): State {
    s.(batches := s.batches[s.nextBatch := batch], nextBatch := s.nextBatch + 1)
  }

  /** makeCall settles: it throws, or names the call; an echo call needs no session patch. */
  function DialOutbound(s: State, id: Id, dialed: Option<Id>): State
    requires id in s.outbound
  {
    match dialed
    case None => s.(outbound := s.outbound - {id})
    case Some(p) =>
      if s.outbound[id].echo then TrackOutbound(s, id, p)
      else s.(outbound := s.outbound[id := s.outbound[id].(stage := Patching(p))])
  }

  function StartInbound(s: State, id: Id, p: Id, wsAudio: bool): State {
    s.(issued := s.issued + {id}, provider := s.provider[p := id],
      inbound := s.inbound[id := OpeningSession(p, wsAudio)])
  }

  function OpenInbound(s: State, id: Id, ok: bool): State
    requires id in s.inbound && s.inbound[id].OpeningSession?
  {
    var t := s.inbound[id];
    if ok then TrackInbound(s, id, t.providerCallId, t.wsAudio)
    else s.(provider := s.provider - {t.providerCallId}, inbound := s.inbound - {id})
  }

  /** The notification promise settles; its id is registered only while the call is tracked. */
  function NotifyInbound(s: State, id: Id, created: Option<Id>): State {
    s.(inbound := s.inbound - {id},
       notification := if created.Some? && id in s.active then s.notification[created.value := id] else s.notification)
  }
}
